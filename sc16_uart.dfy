// The UART half of the split SC16IS7x0 driver (gnublin_module_sc16is7x0):
// each method is a fixed sequence of I2C register reads and writes that
// stops at the first transaction the chip does not acknowledge, setting the
// error flag and returning -1. The driver keeps a software copy of the
// write-only FCR and the FIFO mode it last selected, and the callbacks a
// pollInt may call are recorded as events.
module Sc16Uart {
  import opened Bytes
  import opened I2c
  import opened Sc16Registers
  import opened Sc16Bus
  import opened Sc16Encodings
  import opened Sc16Scripts

  /** A call of one of the driver's callbacks. */
  datatype Event =
    | DataReceived(data: seq<bv8>, length: int)
    | SpaceAvailable(space: int)
    | PinChanged(pin: nat, value: int)

  /** The driver's `config`: the FCR shadow and the FIFO mode last selected by enableFifo. */
  datatype Config = Config(fcrRegister: bv8, fifoEnable: int)

  /** Which callbacks are registered (the function pointers are not NULL). */
  datatype Handlers = Handlers(dataReceived: bool, spaceAvailable: bool)

  /** An `unsigned int` converted to `int`: values from 2^31 on wrap to negative numbers. */
  function Int32(x: nat): (r: int)
    requires x < 0x1_0000_0000
    ensures -0x8000_0000 <= r < 0x8000_0000
    ensures r % 0x1_0000_0000 == x
  {
    if x < 0x8000_0000 then x else x - 0x1_0000_0000
  }

  /** An `int` converted to `unsigned int`: negative values wrap to 2^32 plus the value. */
  function Unsigned32(x: int): (n: nat)
    requires -0x8000_0000 <= x < 0x8000_0000
    ensures n < 0x1_0000_0000
    ensures (n - x) % 0x1_0000_0000 == 0
  {
    if x >= 0 then x else x + 0x1_0000_0000
  }

  /** The two conversions undo each other. */
  lemma Int32RoundTrip(x: int, n: nat)
    requires -0x8000_0000 <= x < 0x8000_0000 && n < 0x1_0000_0000
    ensures Int32(Unsigned32(x)) == x
    ensures Unsigned32(Int32(n)) == n
  {
  }

  /** What rxAvailableData and txAvailableSpace return: the level read, or -1 when the read fails. */
  function Level(ok: bool, v: bv8): (r: int)
    ensures ok <==> r >= 0
    ensures ok ==> r == v as int && r < 256
  {
    if ok then v as int else -1
  }

  /**
   * The transactions of a FIFO-mode write: TXLVL reads, and bursts to THR,
   * each acknowledged, non-empty and no longer than the TXLVL value read
   * just before it.
   */
  ghost predicate Chunked(log: Log, base: Log)
    decreases log
  {
    log == base
    || (log.Then? && log.last.Receive? && log.last.addr == TXLVL && Chunked(log.earlier, base))
    || (log.Then? && log.last.SendBlock? && log.last.addr == THR && log.last.ok
        && log.earlier.Then? && log.earlier.last.Receive? && log.earlier.last.addr == TXLVL
        && 0 < |log.last.data| <= log.earlier.last.v as int
        && Chunked(log.earlier.earlier, base))
  }

  /** A busy-wait on TXLVL extends a chunked log. */
  lemma {:induction false} PolledChunked(log: Log, mid: Log, base: Log)
    requires Polled(log, mid, TXLVL) && Chunked(mid, base)
    ensures Chunked(log, base)
    decreases log
  {
    if log != mid {
      PolledChunked(log.earlier, mid, base);
    }
  }

  /**
   * The byte count read asks for: RXLVL when it is below `len`, else `len`.
   * When the RXLVL read fails, its -1 becomes the largest `unsigned int`, so
   * the count is `len` itself.
   */
  function ReadLength(ok: bool, lvl: bv8, len: nat): (n: nat)
    ensures n <= len
    ensures ok ==> n == if (lvl as nat) < len then lvl as nat else len
    ensures !ok ==> n == len
  {
    if ok && (lvl as nat) < len then lvl as nat else len
  }

  /** Output `w` then a prefix of `buffer`, followed by the next `n` bytes, is `w` then the longer prefix. */
  lemma PrefixGrows(w: seq<bv8>, buffer: seq<bv8>, pos: nat, n: nat)
    requires pos + n <= |buffer|
    ensures w + buffer[..pos] + buffer[pos..pos + n] == w + buffer[..pos + n]
  {
    assert buffer[..pos] + buffer[pos..pos + n] == buffer[..pos + n];
  }

  /** Output `w` then `n` bytes of `buffer` from `from`, followed by the next byte, is `w` then `n + 1` bytes. */
  lemma SliceGrows(w: seq<bv8>, buffer: seq<bv8>, from: nat, n: nat)
    requires from + n < |buffer|
    ensures w + buffer[from..from + n] + [buffer[from + n]] == w + buffer[from..from + n + 1]
  {
    assert buffer[from..from + n] + [buffer[from + n]] == buffer[from..from + n + 1];
  }

  /**
   * When RXLVL is read and the count fits in an `int`, read returns the
   * smaller of the level and the length asked for, and the burst asks for
   * exactly that many bytes.
   */
  lemma ReadCount(lvl: bv8, len: nat)
    requires len < 0x8000_0000
    ensures Int32(ReadLength(true, lvl, len)) == (if (lvl as nat) < len then lvl as nat else len)
    ensures Clamp(Int32(ReadLength(true, lvl, len))) == Int32(ReadLength(true, lvl, len))
  {
  }

  /**
   * The event pollInt raises for received data, from the log `log` before
   * its RXLVL read: it reads RXLVL (`available`), then calls read, which
   * reads RXLVL again and asks RHR for ReadLength bytes; the callback gets
   * those bytes followed by a NUL, with the length `available + 1` (bytes
   * the second read did not fill are not modelled). After a failed RXLVL
   * read it gets no bytes and the length 0.
   */
  function ReceivedEvent(o: Oracle, log: Log): (e: Event)
    ensures e.DataReceived? && |e.data| <= e.length
    ensures e.length > 0 ==> |e.data| > 0 && e.data[|e.data| - 1] == 0x00
  {
    var k := Size(log);
    var available := Level(!o.fails(k), Next(o, log, 0));
    if available < 0 then DataReceived([], 0)
    else
      var n := ReadLength(!o.fails(k + 1), Next(o, log, 1), available);
      DataReceived(Sampled(o, k + 2, n) + [0x00], available + 1)
  }

  /**
   * ReceivedEvent is the event built from what the RXLVL read returned
   * (`available`, when it succeeded) and the bytes read() then returned.
   */
  lemma ReceivedEventFrom(o: Oracle, log: Log, available: int, data: seq<bv8>)
    requires available == Level(!o.fails(Size(log)), Next(o, log, 0)) && available >= 0
    requires data == Sampled(o, Size(log) + 2, Clamp(Int32(ReadLength(!o.fails(Size(log) + 1), o.sample(Size(log) + 1, 0), available))))
    ensures ReceivedEvent(o, log) == DataReceived(data + [0x00], available + 1)
  {
    var n := ReadLength(!o.fails(Size(log) + 1), o.sample(Size(log) + 1, 0), available);
    ReceivedEventOf(o, log, available);
    SmallCount(n);
  }

  /** ReceivedEvent after an RXLVL read that returned `available`. */
  lemma ReceivedEventOf(o: Oracle, log: Log, available: int)
    requires available == Level(!o.fails(Size(log)), Next(o, log, 0)) && available >= 0
    ensures ReceivedEvent(o, log)
      == DataReceived(Sampled(o, Size(log) + 2, ReadLength(!o.fails(Size(log) + 1), o.sample(Size(log) + 1, 0), available)) + [0x00], available + 1)
  {
  }

  /** A count below 256 passes through the `int` conversion and the clamp unchanged. */
  lemma SmallCount(n: nat)
    requires n < 256
    ensures Clamp(Int32(n)) == n
  {
  }

  /** The transactions of read(len) after `log`: the RXLVL read, then the RHR burst of ReadLength bytes. */
  function ReadLog(o: Oracle, log: Log, len: nat): Log
    requires len < 0x1_0000_0000
  {
    var k := Size(log);
    var n := ReadLength(!o.fails(k), Next(o, log, 0), len);
    Then(Then(log, Receive(RXLVL, Next(o, log, 0), !o.fails(k))),
         ReceiveBlock(RHR, Int32(n), Sampled(o, k + 1, Clamp(Int32(n))), !o.fails(k + 1)))
  }

  /** read sets the error flag when either of its two transactions fails. */
  predicate ReadFailed(o: Oracle, log: Log)
  {
    o.fails(Size(log)) || o.fails(Size(log) + 1)
  }

  /** `log` followed by rxAvailableData's RXLVL read. */
  function RxLevelRead(o: Oracle, log: Log): Log
  {
    Then(log, Receive(RXLVL, Next(o, log, 0), !o.fails(Size(log))))
  }

  /**
   * The transactions of pollInt's received-data case after `log`: the RXLVL
   * read and, when it reports waiting bytes, read() of that many.
   */
  function DataLog(o: Oracle, log: Log): Log
  {
    var available := Level(!o.fails(Size(log)), Next(o, log, 0));
    if available > 0 then ReadLog(o, RxLevelRead(o, log), available) else RxLevelRead(o, log)
  }

  /** The error flag that case leaves: that of read() when it ran, else that of the RXLVL read. */
  predicate DataFailed(o: Oracle, log: Log)
  {
    if Level(!o.fails(Size(log)), Next(o, log, 0)) > 0 then ReadFailed(o, RxLevelRead(o, log)) else o.fails(Size(log))
  }

  /** DataLog and DataFailed once the RXLVL read has returned `available`. */
  lemma DataCase(o: Oracle, log: Log, available: int)
    requires available == Level(!o.fails(Size(log)), Next(o, log, 0))
    ensures available > 0 ==>
      DataLog(o, log) == ReadLog(o, RxLevelRead(o, log), available) && (DataFailed(o, log) <==> ReadFailed(o, RxLevelRead(o, log)))
    ensures available <= 0 ==> DataLog(o, log) == RxLevelRead(o, log) && (DataFailed(o, log) <==> available < 0)
  {
  }

  /** The transactions of pollInt's transmit-space case after `log`: one TXLVL read. */
  function SpaceLog(o: Oracle, log: Log): Log
  {
    Then(log, Receive(TXLVL, Next(o, log, 0), !o.fails(Size(log))))
  }

  /** pollInt's received-data and transmit-space cases only read: no stored register changes, and nothing goes to THR. */
  lemma PollCasesOnlyRead(f: Regs, o: Oracle, log: Log)
    ensures Replay(f, DataLog(o, log)) == Replay(f, log) && Written(DataLog(o, log)) == Written(log)
    ensures Replay(f, SpaceLog(o, log)) == Replay(f, log) && Written(SpaceLog(o, log)) == Written(log)
  {
    ReadOnlyStep(f, log, Receive(TXLVL, Next(o, log, 0), !o.fails(Size(log))));
    var first := RxLevelRead(o, log);
    ReadOnlyStep(f, log, first.last);
    var available := Level(!o.fails(Size(log)), Next(o, log, 0));
    if available > 0 {
      ReadLogOnlyReads(f, o, first, available);
    }
  }

  /** read() only reads. */
  lemma ReadLogOnlyReads(f: Regs, o: Oracle, log: Log, len: nat)
    requires len < 0x1_0000_0000
    ensures Replay(f, ReadLog(o, log, len)) == Replay(f, log) && Written(ReadLog(o, log, len)) == Written(log)
  {
    var t := ReadLog(o, log, len);
    ReadOnlyStep(f, log, t.earlier.last);
    ReadOnlyStep(f, t.earlier, t.last);
  }

  /** A single- or multi-byte read changes no stored register and writes nothing. */
  lemma ReadOnlyStep(f: Regs, log: Log, t: Txn)
    requires t.Receive? || t.ReceiveBlock?
    ensures Replay(f, Then(log, t)) == Replay(f, log) && Written(Then(log, t)) == Written(log)
  {
  }

  /** The number write returns when every burst is acknowledged: `len` as an `int`, or 0 when that is negative. */
  function WriteCount(len: nat): (n: nat)
    requires len < 0x1_0000_0000
    ensures n <= len
  {
    if Int32(len) > 0 then len else 0
  }

  // write() as written, for the two discrepancies recorded in the README.

  /**
   * write's wait for transmit space, `while ((available = txAvailableSpace()) == 0)`,
   * as written: it ends on any value but 0, the -1 of a failed TXLVL read included.
   */
  predicate WaitEndsAsWritten(available: int)
  {
    available != 0
  }

  /** The chunk write sends next: the bytes left, or the space just read if that is smaller. */
  function ChunkLength(len2send: int, available: int): (w: int)
    ensures w <= len2send && w <= available
    ensures w == len2send || w == available
  {
    if len2send > available then available else len2send
  }

  /**
   * A failed TXLVL read ends the wait with -1: with 5 bytes left the chunk
   * is -1 bytes long (a FIFO-mode burst of length -1), and the count of
   * bytes left grows to 6 instead of shrinking.
   */
  lemma FailedLevelAsWritten()
    ensures WaitEndsAsWritten(-1)
    ensures ChunkLength(5, -1) == -1 && 5 - ChunkLength(5, -1) == 6
  {
  }

  /**
   * With the wait of writeByte, `<= 0`, the chunk is never empty and never
   * larger than the space read, and the bytes left strictly decrease.
   */
  lemma ChunkProgress(len2send: int, available: int)
    requires len2send > 0 && available > 0
    ensures 0 < ChunkLength(len2send, available) <= available
    ensures 0 <= len2send - ChunkLength(len2send, available) < len2send
  {
  }

  /**
   * The bytes the non-FIFO branch of write hands to writeByte for a chunk
   * of `writeLen` bytes at `pos`, as written: `while (writeCount <= writeLen)`
   * runs writeLen + 1 times, so the byte after the chunk goes out as well.
   */
  function NonFifoChunkAsWritten(buffer: seq<bv8>, pos: nat, writeLen: nat): (sent: seq<bv8>)
    requires pos + writeLen < |buffer|
    ensures |sent| == writeLen + 1
    ensures sent[..writeLen] == buffer[pos..pos + writeLen]
  {
    buffer[pos..pos + writeLen + 1]
  }

  /**
   * Writing the two bytes of "AB" from the buffer "AB\0" in one chunk sends
   * three bytes, the terminating NUL included.
   */
  lemma NonFifoOverrun()
    ensures NonFifoChunkAsWritten([0x41, 0x42, 0x00], 0, 2) == [0x41, 0x42, 0x00]
  {
  }

  class Uart {
    const i2c: Bus
    /** The values the source uses as CONF_INT_NONE, CONF_INT_DISABLED and CONF_FLOW_DISABLED. */
    const intNone: bv8
    const intDisabled: bv8
    const flowDisabled: bv8
    var errorFlag: bool
    var config: Config
    var handlers: Handlers
    var events: seq<Event>

    /** Only the error flag changes. */
    twostate predicate KeepsState()
      reads this
    {
      config == old(config) && handlers == old(handlers) && events == old(events)
    }

    constructor(oracle: Oracle, intNone: bv8, intDisabled: bv8, flowDisabled: bv8)
      ensures fresh(i2c) && i2c.oracle == oracle && i2c.log == Empty
      ensures this.intNone == intNone && this.intDisabled == intDisabled && this.flowDisabled == flowDisabled
      ensures !errorFlag && config == Config(0x00, 0) && handlers == Handlers(false, false) && events == []
    {
      i2c := new Bus(oracle);
      this.intNone := intNone;
      this.intDisabled := intDisabled;
      this.flowDisabled := flowDisabled;
      errorFlag := false;
      config := Config(0x00, 0);
      handlers := Handlers(false, false);
      events := [];
    }

    /** softReset: sets IOCTRL[3] by read-modify-write. */
    method SoftReset() returns (r: int)
      modifies this, i2c
      ensures KeepsState()
      ensures r == 1 <==> !errorFlag
      ensures r == 1 ==> i2c.log == SoftResetScript(old(i2c.log), Next(i2c.oracle, old(i2c.log), 0))
      ensures r != 1 ==> r == -1 && FailedLast(i2c.log)
    {
      errorFlag := false;
      var ok, io := i2c.ReceiveByte(IOCTRL);
      if !ok { errorFlag := true; return -1; }
      ok := i2c.SendByte(IOCTRL, io | 0x08);
      if !ok { errorFlag := true; return -1; }
      return 1;
    }

    /**
     * setBaudRate: refuses a rate outside 300 .. 230400 before any bus
     * traffic; otherwise writes the divisor to DLL and DLH with LCR[7] set
     * and restores LCR.
     */
    method SetBaudRate(baud: nat) returns (r: int)
      modifies this, i2c
      ensures KeepsState()
      ensures r == 1 <==> !errorFlag
      ensures !(UART_300 <= baud <= UART_230400) ==> r == -1 && i2c.log == old(i2c.log)
      ensures r == 1 ==> UART_300 <= baud <= UART_230400
      ensures r == 1 ==> i2c.log == BaudScript(old(i2c.log), Next(i2c.oracle, old(i2c.log), 0),
                                 DivisorLow(Divisor(baud)), DivisorHigh(Divisor(baud)))
      ensures r != 1 ==> r == -1 && (UART_300 <= baud <= UART_230400 ==> FailedLast(i2c.log))
    {
      errorFlag := false;
      if baud < UART_300 || baud > UART_230400 {
        errorFlag := true;
        return -1;
      }
      DivisorRange(baud);
      var divisor: nat := Divisor(baud);
      var lsb := DivisorLow(divisor);
      var msb := DivisorHigh(divisor);
      var ok, lcr := i2c.ReceiveByte(LCR);
      if !ok { errorFlag := true; return -1; }
      ok := i2c.SendByte(LCR, lcr | 0x80);
      if !ok { errorFlag := true; return -1; }
      ok := i2c.SendByte(DLL, lsb);
      if !ok { errorFlag := true; return -1; }
      ok := i2c.SendByte(DLH, msb);
      if !ok { errorFlag := true; return -1; }
      ok := i2c.SendByte(LCR, lcr);
      if !ok { errorFlag := true; return -1; }
      return 1;
    }

    /** setDataFormat: reads LCR, then overwrites it with the format code. */
    method SetDataFormat(format: bv8) returns (r: int)
      modifies this, i2c
      ensures KeepsState()
      ensures r == 1 <==> !errorFlag
      ensures r == 1 ==> i2c.log == FormatScript(old(i2c.log), Next(i2c.oracle, old(i2c.log), 0), format)
      ensures r != 1 ==> r == -1 && FailedLast(i2c.log)
    {
      errorFlag := false;
      var ok, lcr := i2c.ReceiveByte(LCR);
      if !ok { errorFlag := true; return -1; }
      ok := i2c.SendByte(LCR, format);
      if !ok { errorFlag := true; return -1; }
      return 1;
    }

    /** The opening of the enhanced-register window; `lcr` and `efr` are the saved values. */
    method EnterEnhanced() returns (ok: bool, lcr: bv8, efr: bv8)
      modifies i2c
      ensures lcr == Next(i2c.oracle, old(i2c.log), 0) && efr == Next(i2c.oracle, old(i2c.log), 2)
      ensures ok ==> i2c.log == Enter(old(i2c.log), lcr, efr) && Size(i2c.log) == Size(old(i2c.log)) + 4
      ensures !ok ==> FailedLast(i2c.log)
    {
      lcr := Next(i2c.oracle, i2c.log, 0);
      efr := Next(i2c.oracle, i2c.log, 2);
      var v;
      ok, v := i2c.ReceiveByte(LCR);
      if !ok { return; }
      ok := i2c.SendByte(LCR, 0xBF);
      if !ok { return; }
      ok, v := i2c.ReceiveByte(EFR);
      if !ok { return; }
      ok := i2c.SendByte(EFR, efr | 0x10);
    }

    /** The closing of the enhanced-register window. */
    method LeaveEnhanced(lcr: bv8, efr: bv8) returns (ok: bool)
      modifies i2c
      ensures ok ==> i2c.log == Leave(old(i2c.log), lcr, efr)
      ensures !ok ==> FailedLast(i2c.log)
    {
      ok := i2c.SendByte(EFR, efr);
      if !ok { return; }
      ok := i2c.SendByte(LCR, lcr);
    }

    /**
     * setModemControl: inside the window, writes 0x04 at the MCR sub-address.
     * The driver means it to set MCR[2] and open TCR and TLR; with LCR at
     * 0xBF the bank rules send it to XON1 instead (ModemEffect).
     */
    method SetModemControl() returns (r: int)
      modifies this, i2c
      ensures KeepsState()
      ensures r == 1 <==> !errorFlag
      ensures r == 1 ==> i2c.log == ModemScript(old(i2c.log), Next(i2c.oracle, old(i2c.log), 0), Next(i2c.oracle, old(i2c.log), 2))
      ensures r != 1 ==> r == -1 && FailedLast(i2c.log)
    {
      errorFlag := false;
      var ok, lcr, efr := EnterEnhanced();
      if !ok { errorFlag := true; return -1; }
      ok := i2c.SendByte(MCR, 0x04);
      if !ok { errorFlag := true; return -1; }
      ok := LeaveEnhanced(lcr, efr);
      if !ok { errorFlag := true; return -1; }
      return 1;
    }

    /** setFlowControl: with LCR at 0xBF, writes the flow code to EFR, then restores LCR. */
    method SetFlowControl(flow: bv8) returns (r: int)
      modifies this, i2c
      ensures KeepsState()
      ensures r == 1 <==> !errorFlag
      ensures r == 1 ==> i2c.log == FlowScript(old(i2c.log), Next(i2c.oracle, old(i2c.log), 0), flow)
      ensures r != 1 ==> r == -1 && FailedLast(i2c.log)
    {
      errorFlag := false;
      var ok, lcr := i2c.ReceiveByte(LCR);
      if !ok { errorFlag := true; return -1; }
      ok := i2c.SendByte(LCR, 0xBF);
      if !ok { errorFlag := true; return -1; }
      ok := i2c.SendByte(EFR, flow);
      if !ok { errorFlag := true; return -1; }
      ok := i2c.SendByte(LCR, lcr);
      if !ok { errorFlag := true; return -1; }
      return 1;
    }

    /**
     * setFlowTriggers: refuses levels that are not multiples of 4 and a
     * halt level above the resume level, before any bus traffic (its tests
     * for levels above 60 join two comparisons with `&&` and never fire);
     * otherwise writes the TCR byte at the TCR sub-address inside the window,
     * which the bank rules make XOFF1 there (TriggersEffect).
     */
    method SetFlowTriggers(resume: nat, halt: nat) returns (r: int)
      modifies this, i2c
      ensures KeepsState()
      ensures r == 1 <==> !errorFlag
      ensures !FlowTriggersAccepted(resume, halt) ==> r == -1 && i2c.log == old(i2c.log)
      ensures r == 1 ==> FlowTriggersAccepted(resume, halt)
      ensures r == 1 ==> i2c.log == TriggersScript(old(i2c.log), Next(i2c.oracle, old(i2c.log), 0),
                                                   Next(i2c.oracle, old(i2c.log), 2), TcrByte(resume, halt))
      ensures r != 1 ==> r == -1 && (FlowTriggersAccepted(resume, halt) ==> FailedLast(i2c.log))
    {
      errorFlag := false;
      if resume % 4 != 0 || halt % 4 != 0 || halt > resume {
        errorFlag := true;
        return -1;
      }
      var ok, lcr, efr := EnterEnhanced();
      if !ok { errorFlag := true; return -1; }
      ok := i2c.SendByte(TCR, TcrByte(resume, halt));
      if !ok { errorFlag := true; return -1; }
      ok := LeaveEnhanced(lcr, efr);
      if !ok { errorFlag := true; return -1; }
      return 1;
    }

    /**
     * setInterrupt: writes the upper nibble of `CONF_INT_NONE | interrupt`
     * at the IER sub-address inside the window, restores EFR and LCR, then
     * writes the whole value to IER.
     */
    method SetInterrupt(interrupt: bv8) returns (r: int)
      modifies this, i2c
      ensures KeepsState()
      ensures r == 1 <==> !errorFlag
      ensures r == 1 ==> i2c.log == InterruptScript(old(i2c.log), Next(i2c.oracle, old(i2c.log), 0),
                                                    Next(i2c.oracle, old(i2c.log), 2), intNone | interrupt)
      ensures r != 1 ==> r == -1 && FailedLast(i2c.log)
    {
      errorFlag := false;
      var ok, lcr, efr := EnterEnhanced();
      if !ok { errorFlag := true; return -1; }
      var ier := (intNone | interrupt) & 0xF0;
      ok := i2c.SendByte(IER, ier);
      if !ok { errorFlag := true; return -1; }
      ok := LeaveEnhanced(lcr, efr);
      if !ok { errorFlag := true; return -1; }
      ier := ier | ((intNone | interrupt) & 0x0F);
      assert ier == intNone | interrupt;
      ok := i2c.SendByte(IER, ier);
      if !ok { errorFlag := true; return -1; }
      return 1;
    }

    /**
     * enableFifo: sets the FCR shadow to 0x01 when `value` is 1 and to 0x00
     * otherwise, writes it to FCR, and records `value` as the FIFO mode only
     * once that write succeeds.
     */
    method EnableFifo(value: int) returns (r: int)
      modifies this, i2c
      ensures handlers == old(handlers) && events == old(events)
      ensures config.fcrRegister == (if value == 1 then 0x01 else 0x00)
      ensures i2c.log == Then(old(i2c.log), Send(FCR, config.fcrRegister, !i2c.oracle.fails(Size(old(i2c.log)))))
      ensures r == 1 <==> !errorFlag
      ensures r == 1 <==> i2c.log.last.ok
      ensures r != 1 ==> r == -1
      ensures config.fifoEnable == (if r == 1 then value else old(config.fifoEnable))
    {
      errorFlag := false;
      config := config.(fcrRegister := if value == 1 then 0x01 else 0x00);
      var ok := i2c.SendByte(FCR, config.fcrRegister);
      if !ok { errorFlag := true; return -1; }
      config := config.(fifoEnable := value);
      return 1;
    }

    /**
     * The part the trigger-level setters share once the level is accepted:
     * inside the window, read the TLR sub-address, write it back with the
     * new level packed in (`RxTlr` or `TxTlr`), clear the upper nibble of the
     * FCR shadow and write the shadow at the FCR sub-address. The shadow is
     * cleared once the TLR write succeeds. Which registers these reach with
     * LCR at 0xBF is TriggerLevelEffect's subject.
     */
    method ProgramTriggerLevel(level: nat, rx: bool) returns (r: int)
      modifies this, i2c
      ensures handlers == old(handlers) && events == old(events) && config.fifoEnable == old(config.fifoEnable)
      ensures r == 1 <==> !errorFlag
      ensures r == 1 ==> config.fcrRegister == old(config.fcrRegister) & 0x0F
      ensures r == 1 ==> (
        var tlr := Next(i2c.oracle, old(i2c.log), 4);
        i2c.log == TriggerLevelScript(old(i2c.log), Next(i2c.oracle, old(i2c.log), 0), Next(i2c.oracle, old(i2c.log), 2),
                                      tlr, if rx then RxTlr(tlr, level) else TxTlr(tlr, level), config.fcrRegister))
      ensures r != 1 ==> r == -1 && FailedLast(i2c.log)
      ensures r != 1 ==> config.fcrRegister == old(config.fcrRegister) || config.fcrRegister == old(config.fcrRegister) & 0x0F
    {
      errorFlag := false;
      var ok, lcr, efr := EnterEnhanced();
      if !ok { errorFlag := true; return -1; }
      assert Next(i2c.oracle, i2c.log, 0) == Next(i2c.oracle, old(i2c.log), 4);
      ok := UpdateTriggerLevel(level, rx);
      if !ok { errorFlag := true; return -1; }
      ok := LeaveEnhanced(lcr, efr);
      if !ok { errorFlag := true; return -1; }
      return 1;
    }

    /** The middle of ProgramTriggerLevel: the TLR read-modify-write and the FCR write. */
    method UpdateTriggerLevel(level: nat, rx: bool) returns (ok: bool)
      modifies this, i2c
      ensures errorFlag == old(errorFlag) && handlers == old(handlers) && events == old(events) && config.fifoEnable == old(config.fifoEnable)
      ensures ok ==> config.fcrRegister == old(config.fcrRegister) & 0x0F
      ensures ok ==> (
        var tlr := Next(i2c.oracle, old(i2c.log), 0);
        i2c.log == Then(Then(Then(old(i2c.log),
          Receive(TLR, tlr, true)),
          Send(TLR, if rx then RxTlr(tlr, level) else TxTlr(tlr, level), true)),
          Send(FCR, config.fcrRegister, true)))
      ensures !ok ==> FailedLast(i2c.log)
      ensures !ok ==> config.fcrRegister == old(config.fcrRegister) || config.fcrRegister == old(config.fcrRegister) & 0x0F
    {
      var tlr;
      ok, tlr := i2c.ReceiveByte(TLR);
      if !ok { return; }
      var newTlr := if rx then RxTlr(tlr, level) else TxTlr(tlr, level);
      ok := i2c.SendByte(TLR, newTlr);
      if !ok { return; }
      config := config.(fcrRegister := config.fcrRegister & (0x3F & 0xCF));
      ok := i2c.SendByte(FCR, config.fcrRegister);
    }

    /**
     * rxFifoSetTriggerLevel: with the FIFO mode 0 it does nothing; otherwise
     * it refuses a level that is not a multiple of 4 (its range test,
     * `(level < 4) && (level > 60)`, never holds) and writes the receive
     * trigger level, packed as TLR[7:4], back at the TLR sub-address inside
     * the window, where the bank rules make that sub-address XOFF2
     * (TriggerLevelEffect).
     */
    method RxFifoSetTriggerLevel(level: nat) returns (r: int)
      modifies this, i2c
      ensures handlers == old(handlers) && events == old(events) && config.fifoEnable == old(config.fifoEnable)
      ensures r == 1 <==> !errorFlag
      ensures old(config.fifoEnable) == 0 ==> r == 1 && i2c.log == old(i2c.log) && config == old(config)
      ensures old(config.fifoEnable) != 0 && level % 4 != 0 ==> r == -1 && i2c.log == old(i2c.log) && config == old(config)
      ensures old(config.fifoEnable) != 0 && r == 1 ==> config.fcrRegister == old(config.fcrRegister) & 0x0F
      ensures old(config.fifoEnable) != 0 && r == 1 ==> (
        var tlr := Next(i2c.oracle, old(i2c.log), 4);
        i2c.log == TriggerLevelScript(old(i2c.log), Next(i2c.oracle, old(i2c.log), 0), Next(i2c.oracle, old(i2c.log), 2),
                                      tlr, RxTlr(tlr, level), config.fcrRegister))
      ensures r != 1 ==> r == -1 && (level % 4 == 0 ==> FailedLast(i2c.log))
    {
      errorFlag := false;
      if config.fifoEnable == 0 {
        return 1;
      }
      if level % 4 != 0 {
        errorFlag := true;
        return -1;
      }
      r := ProgramTriggerLevel(level, true);
    }

    /**
     * txFifoSetTriggerLevel: as rxFifoSetTriggerLevel, but the transmit
     * trigger level is packed as TLR[3:0]; the byte again reaches XOFF2.
     */
    method TxFifoSetTriggerLevel(level: nat) returns (r: int)
      modifies this, i2c
      ensures handlers == old(handlers) && events == old(events) && config.fifoEnable == old(config.fifoEnable)
      ensures r == 1 <==> !errorFlag
      ensures old(config.fifoEnable) == 0 ==> r == 1 && i2c.log == old(i2c.log) && config == old(config)
      ensures old(config.fifoEnable) != 0 && level % 4 != 0 ==> r == -1 && i2c.log == old(i2c.log) && config == old(config)
      ensures old(config.fifoEnable) != 0 && r == 1 ==> config.fcrRegister == old(config.fcrRegister) & 0x0F
      ensures old(config.fifoEnable) != 0 && r == 1 ==> (
        var tlr := Next(i2c.oracle, old(i2c.log), 4);
        i2c.log == TriggerLevelScript(old(i2c.log), Next(i2c.oracle, old(i2c.log), 0), Next(i2c.oracle, old(i2c.log), 2),
                                      tlr, TxTlr(tlr, level), config.fcrRegister))
      ensures r != 1 ==> r == -1 && (level % 4 == 0 ==> FailedLast(i2c.log))
    {
      errorFlag := false;
      if config.fifoEnable == 0 {
        return 1;
      }
      if level % 4 != 0 {
        errorFlag := true;
        return -1;
      }
      r := ProgramTriggerLevel(level, false);
    }

    /** rxAvailableData: the RXLVL value, or -1 when the read fails. */
    method RxAvailableData() returns (r: int)
      modifies this, i2c
      ensures KeepsState()
      ensures i2c.log == Then(old(i2c.log), Receive(RXLVL, Next(i2c.oracle, old(i2c.log), 0), !i2c.oracle.fails(Size(old(i2c.log)))))
      ensures r == Level(i2c.log.last.ok, i2c.log.last.v)
      ensures errorFlag <==> r == -1
    {
      errorFlag := false;
      var ok, v := i2c.ReceiveByte(RXLVL);
      if !ok { errorFlag := true; return -1; }
      return v as int;
    }

    /** txAvailableSpace: the TXLVL value, or -1 when the read fails. */
    method TxAvailableSpace() returns (r: int)
      modifies this, i2c
      ensures KeepsState()
      ensures i2c.log == Then(old(i2c.log), Receive(TXLVL, Next(i2c.oracle, old(i2c.log), 0), !i2c.oracle.fails(Size(old(i2c.log)))))
      ensures r == Level(i2c.log.last.ok, i2c.log.last.v)
      ensures errorFlag <==> r == -1
    {
      errorFlag := false;
      var ok, v := i2c.ReceiveByte(TXLVL);
      if !ok { errorFlag := true; return -1; }
      return v as int;
    }

    /** readLineStatus: the LSR value, or 0xFF (-1 as `unsigned char`) when the read fails. */
    method ReadLineStatus() returns (r: bv8)
      modifies this, i2c
      ensures KeepsState()
      ensures i2c.log == Then(old(i2c.log), Receive(LSR, Next(i2c.oracle, old(i2c.log), 0), !i2c.oracle.fails(Size(old(i2c.log)))))
      ensures errorFlag <==> !i2c.log.last.ok
      ensures r == if errorFlag then 0xFF else i2c.log.last.v
    {
      errorFlag := false;
      var ok, v := i2c.ReceiveByte(LSR);
      if !ok { errorFlag := true; return 0xFF; }
      return v;
    }

    /** resetRxFifo / resetTxFifo: write the shadow with FCR[1] or FCR[2] set; the shadow itself is kept. */
    method ResetFifo(rx: bool) returns (r: int)
      modifies this, i2c
      ensures KeepsState()
      ensures i2c.log == Then(old(i2c.log), Send(FCR, config.fcrRegister | (if rx then 0x02 else 0x04), !i2c.oracle.fails(Size(old(i2c.log)))))
      ensures r == 1 <==> !errorFlag
      ensures r == 1 <==> i2c.log.last.ok
      ensures r != 1 ==> r == -1
    {
      errorFlag := false;
      var ok := i2c.SendByte(FCR, config.fcrRegister | (if rx then 0x02 else 0x04));
      if ok {
        return 1;
      }
      errorFlag := true;
      return -1;
    }

    /** enableLoopback: sets MCR[4] by read-modify-write. */
    method EnableLoopback() returns (r: int)
      modifies this, i2c
      ensures KeepsState()
      ensures r == 1 <==> !errorFlag
      ensures r == 1 ==> i2c.log == LoopbackScript(old(i2c.log), Next(i2c.oracle, old(i2c.log), 0))
      ensures r != 1 ==> r == -1 && FailedLast(i2c.log)
    {
      errorFlag := false;
      var ok, mcr := i2c.ReceiveByte(MCR);
      if !ok { errorFlag := true; return -1; }
      ok := i2c.SendByte(MCR, mcr | 0x10);
      if !ok { errorFlag := true; return -1; }
      return 1;
    }

    /**
     * The wait of writeByte, `while (txAvailableSpace() <= 0)`: TXLVL is
     * read until a read succeeds with a non-zero level. It ends because the
     * oracle eventually reports space.
     */
    method AwaitTxSpace() returns (space: int)
      requires TxLive(i2c.oracle)
      modifies this, i2c
      ensures KeepsState() && !errorFlag
      ensures 0 < space < 256
      ensures i2c.log.Then? && i2c.log.last == Receive(TXLVL, space as bv8, true)
      ensures Polled(i2c.log.earlier, old(i2c.log), TXLVL)
    {
      assert TxReadyFrom(i2c.oracle, Size(i2c.log));
      ghost var j: nat :| Size(i2c.log) <= j && TxReady(i2c.oracle, j);
      space := TxAvailableSpace();
      while space <= 0
        invariant KeepsState() && (errorFlag <==> space == -1)
        invariant i2c.log.Then? && i2c.log.last.Receive? && i2c.log.last.addr == TXLVL
        invariant space == Level(i2c.log.last.ok, i2c.log.last.v)
        invariant Polled(i2c.log.earlier, old(i2c.log), TXLVL)
        invariant space <= 0 ==> Size(i2c.log) <= j
        decreases j - Size(i2c.log)
      {
        space := TxAvailableSpace();
      }
    }

    /** writeByte: waits for transmit space, then writes the byte to THR. */
    method WriteByte(b: bv8) returns (r: int)
      requires TxLive(i2c.oracle)
      modifies this, i2c
      ensures KeepsState()
      ensures i2c.log.Then? && i2c.log.last == Send(THR, b, r == 1)
      ensures i2c.log.earlier.Then? && i2c.log.earlier.last.Receive? && i2c.log.earlier.last.addr == TXLVL
      ensures i2c.log.earlier.last.ok && i2c.log.earlier.last.v != 0
      ensures Polled(i2c.log.earlier, old(i2c.log), TXLVL)
      ensures r == 1 <==> !errorFlag
      ensures r != 1 ==> r == -1
      ensures Written(i2c.log) == Written(old(i2c.log)) + [b]
      ensures Sent(i2c.log) == Sent(old(i2c.log)) + (if r == 1 then [b] else [])
    {
      errorFlag := false;
      var space := AwaitTxSpace();
      PolledWritesNothing(i2c.log, old(i2c.log), TXLVL);
      var ok := i2c.SendByte(THR, b);
      if ok {
        return 1;
      }
      errorFlag := true;
      return -1;
    }

    /**
     * One pass of write's outer loop in FIFO mode: waits for transmit space
     * as writeByte does, then sends the next chunk, at most `left` bytes and
     * at most the space read, as one burst to THR.
     */
    method FifoChunk(buffer: seq<bv8>, pos: nat, left: nat, ghost base: Log) returns (ok: bool, writeLen: nat)
      requires 0 < left && pos + left <= |buffer|
      requires TxLive(i2c.oracle) && Chunked(i2c.log, base)
      modifies this, i2c
      ensures KeepsState() && !errorFlag
      ensures 0 < writeLen <= left
      ensures Written(i2c.log) == Written(old(i2c.log)) + buffer[pos..pos + writeLen]
      ensures ok ==> Chunked(i2c.log, base) && Sent(i2c.log) == Sent(old(i2c.log)) + buffer[pos..pos + writeLen]
      ensures !ok ==> FailedLast(i2c.log)
    {
      ghost var before := i2c.log;
      var available := AwaitTxSpace();
      ghost var polled := i2c.log;
      PolledWritesNothing(polled.earlier, before, TXLVL);
      PolledChunked(polled.earlier, before, base);
      ReceiveWritesNothing(polled.earlier, TXLVL, available as bv8, true);
      ChunkProgress(left, available);
      writeLen := ChunkLength(left, available);
      ok := i2c.SendBurst(THR, buffer[pos..pos + writeLen]);
      BurstWritten(polled, buffer[pos..pos + writeLen], ok);
    }

    /**
     * One pass of write's outer loop without the FIFO: waits for transmit
     * space, then hands the next chunk to writeByte one byte at a time
     * (`writeLen` calls), ignoring what writeByte returns.
     */
    method ByteChunk(buffer: seq<bv8>, pos: nat, left: nat) returns (writeLen: nat)
      requires 0 < left && pos + left <= |buffer|
      requires TxLive(i2c.oracle)
      modifies this, i2c
      ensures KeepsState()
      ensures 0 < writeLen <= left
      ensures Written(i2c.log) == Written(old(i2c.log)) + buffer[pos..pos + writeLen]
    {
      ghost var before := i2c.log;
      var available := AwaitTxSpace();
      PolledWritesNothing(i2c.log.earlier, before, TXLVL);
      ChunkProgress(left, available);
      writeLen := ChunkLength(left, available);
      ghost var start := i2c.log;
      var writeCount := 0;
      while writeCount < writeLen
        invariant 0 <= writeCount <= writeLen
        invariant KeepsState()
        invariant Written(i2c.log) == Written(start) + buffer[pos..pos + writeCount]
      {
        var _ := WriteByte(buffer[pos + writeCount]);
        SliceGrows(Written(start), buffer, pos, writeCount);
        writeCount := writeCount + 1;
      }
    }

    /**
     * write, with the wait of writeByte (`<= 0`) and the non-FIFO loop
     * running `writeLen` times: sends the first `len` bytes of `buffer` in
     * chunks no larger than the TXLVL just read, as one burst per chunk in
     * FIFO mode and byte by byte through writeByte otherwise, and returns
     * `len`. A failed burst returns -1; failures of writeByte are ignored.
     */
    method Write(buffer: seq<bv8>, len: nat) returns (r: int)
      requires len <= |buffer| && len < 0x1_0000_0000
      requires TxLive(i2c.oracle)
      modifies this, i2c
      ensures KeepsState()
      ensures r == -1 ==> config.fifoEnable == 1 && errorFlag && FailedLast(i2c.log)
      ensures r != -1 ==> r == WriteCount(len)
      ensures r != -1 ==> Written(i2c.log) == Written(old(i2c.log)) + buffer[..r]
      ensures config.fifoEnable == 1 && r != -1 ==>
        !errorFlag && Chunked(i2c.log, old(i2c.log)) && Sent(i2c.log) == Sent(old(i2c.log)) + buffer[..r]
    {
      errorFlag := false;
      var len2send := Int32(len);
      var pos: nat := 0;
      while len2send > 0
        invariant pos <= WriteCount(len)
        invariant len2send > 0 ==> pos + len2send == WriteCount(len)
        invariant len2send <= 0 ==> pos == WriteCount(len)
        invariant KeepsState()
        invariant Written(i2c.log) == Written(old(i2c.log)) + buffer[..pos]
        invariant config.fifoEnable == 1 ==>
          !errorFlag && Chunked(i2c.log, old(i2c.log)) && Sent(i2c.log) == Sent(old(i2c.log)) + buffer[..pos]
        decreases len2send
      {
        var writeLen;
        if config.fifoEnable == 1 {
          var ok;
          ok, writeLen := FifoChunk(buffer, pos, len2send, old(i2c.log));
          if !ok {
            errorFlag := true;
            return -1;
          }
        } else {
          writeLen := ByteChunk(buffer, pos, len2send);
        }
        PrefixGrows(Written(old(i2c.log)), buffer, pos, writeLen);
        PrefixGrows(Sent(old(i2c.log)), buffer, pos, writeLen);
        len2send := len2send - writeLen;
        pos := pos + writeLen;
      }
      return pos;
    }

    /**
     * readByte: reads RXLVL; with data waiting, reads one byte from RHR. The
     * byte is returned as a one-element sequence, and none is returned when
     * nothing is read.
     */
    method ReadByte() returns (r: int, byte: seq<bv8>)
      modifies this, i2c
      ensures KeepsState()
      ensures r == 1 <==> !errorFlag
      ensures r != 1 ==> r == -1
      ensures
        var k := Size(old(i2c.log));
        var lvl := Next(i2c.oracle, old(i2c.log), 0);
        var first := Then(old(i2c.log), Receive(RXLVL, lvl, !i2c.oracle.fails(k)));
        if i2c.oracle.fails(k) then
          r == -1 && byte == [] && i2c.log == first
        else if lvl == 0 then
          r == 1 && byte == [] && i2c.log == first
        else
          var ok := !i2c.oracle.fails(k + 1);
          i2c.log == Then(first, Receive(RHR, Next(i2c.oracle, old(i2c.log), 1), ok))
          && r == (if ok then 1 else -1)
          && byte == (if ok then [Next(i2c.oracle, old(i2c.log), 1)] else [])
    {
      errorFlag := false;
      var available := RxAvailableData();
      if available < 0 {
        return -1, [];
      }
      if available == 0 {
        return 1, [];
      }
      var ok, v := i2c.ReceiveByte(RHR);
      if !ok {
        errorFlag := true;
        return -1, [];
      }
      return 1, [v];
    }

    /**
     * read: reads RXLVL, then asks RHR for ReadLength bytes (passed on as an
     * `int`) and returns that count, or -1 when the burst fails.
     */
    method Read(len: nat) returns (r: int, data: seq<bv8>)
      requires len < 0x1_0000_0000
      modifies this, i2c
      ensures KeepsState()
      ensures
        var k := Size(old(i2c.log));
        var lvl := Next(i2c.oracle, old(i2c.log), 0);
        var n := ReadLength(!i2c.oracle.fails(k), lvl, len);
        var ok := !i2c.oracle.fails(k + 1);
        i2c.log == Then(Then(old(i2c.log), Receive(RXLVL, lvl, !i2c.oracle.fails(k))), ReceiveBlock(RHR, Int32(n), data, ok))
        && data == Sampled(i2c.oracle, k + 1, Clamp(Int32(n)))
        && r == (if ok then Int32(n) else -1)
        && (errorFlag <==> i2c.oracle.fails(k) || !ok)
      ensures i2c.log == ReadLog(i2c.oracle, old(i2c.log), len) && (errorFlag <==> ReadFailed(i2c.oracle, old(i2c.log)))
    {
      errorFlag := false;
      var available := RxAvailableData();
      var len2read := ReadLength(available >= 0, if available >= 0 then available as bv8 else 0, len);
      var ok;
      ok, data := i2c.ReceiveBurst(RHR, Int32(len2read));
      if !ok {
        errorFlag := true;
        return -1, data;
      }
      return Int32(len2read), data;
    }

    /**
     * rxEmptyFifo: reads RXLVL and, unless it is 0, reads that many bytes
     * from RHR and drops them; a failed RXLVL read asks for -1 bytes.
     */
    method RxEmptyFifo() returns (r: int)
      modifies this, i2c
      ensures KeepsState()
      ensures
        var k := Size(old(i2c.log));
        var lvl := Next(i2c.oracle, old(i2c.log), 0);
        var available := Level(!i2c.oracle.fails(k), lvl);
        var first := Then(old(i2c.log), Receive(RXLVL, lvl, !i2c.oracle.fails(k)));
        if available == 0 then
          r == 1 && !errorFlag && i2c.log == first
        else
          var ok := !i2c.oracle.fails(k + 1);
          i2c.log == Then(first, ReceiveBlock(RHR, available, Sampled(i2c.oracle, k + 1, Clamp(available)), ok))
          && r == (if ok then 1 else -1)
          && (errorFlag <==> available < 0 || !ok)
    {
      errorFlag := false;
      var available := RxAvailableData();
      if available == 0 {
        return 1;
      }
      var ok, data := i2c.ReceiveBurst(RHR, available);
      if !ok {
        errorFlag := true;
        return -1;
      }
      return 1;
    }

    /** isIntPending: 1 when IIR[0] is clear (an interrupt is pending), 0 when it is set, -1 when the read fails. */
    method IsIntPending() returns (r: int)
      modifies this, i2c
      ensures KeepsState()
      ensures var v := Next(i2c.oracle, old(i2c.log), 0); var ok := !i2c.oracle.fails(Size(old(i2c.log)));
        i2c.log == Then(old(i2c.log), Receive(IIR, v, ok))
        && r == (if !ok then -1 else if v & 0x01 == 0x01 then 0 else 1)
      ensures errorFlag <==> r == -1
    {
      errorFlag := false;
      var ok, v := i2c.ReceiveByte(IIR);
      if ok {
        if v & 0x01 == 0x01 {
          return 0;
        } else {
          // IIR[0] is 0 here; the source's third, "unknown error" branch cannot be taken.
          return 1;
        }
      } else {
        errorFlag := true;
        return -1;
      }
    }

    /** whichInt: the interrupt identification of IIR (IntId), or -1 when the read fails. */
    method WhichInt() returns (r: int)
      modifies this, i2c
      ensures KeepsState()
      ensures var v := Next(i2c.oracle, old(i2c.log), 0); var ok := !i2c.oracle.fails(Size(old(i2c.log)));
        i2c.log == Then(old(i2c.log), Receive(IIR, v, ok))
        && r == (if ok then IntId(v) else -1)
      ensures errorFlag <==> r == -1
    {
      errorFlag := false;
      var ok, v := i2c.ReceiveByte(IIR);
      if !ok {
        errorFlag := true;
        return -1;
      }
      return IntId(v);
    }

    /**
     * The INT_RHR case of pollInt with a data callback registered: reads
     * RXLVL and, when bytes are waiting, read()s that many and raises
     * ReceivedEvent.
     */
    method DeliverData()
      modifies this, i2c
      ensures config == old(config) && handlers == old(handlers)
      ensures events == old(events) + (
        if Level(!i2c.oracle.fails(Size(old(i2c.log))), Next(i2c.oracle, old(i2c.log), 0)) > 0
        then [ReceivedEvent(i2c.oracle, old(i2c.log))]
        else [])
      ensures i2c.log == DataLog(i2c.oracle, old(i2c.log))
      ensures errorFlag <==> DataFailed(i2c.oracle, old(i2c.log))
    {
      var available := RxAvailableData();
      DataCase(i2c.oracle, old(i2c.log), available);
      if available > 0 {
        ReportData(available, old(i2c.log));
      }
    }

    /**
     * The rest of DeliverData once RXLVL, read after `base`, reported
     * `available` bytes: read() them and raise the event with them.
     */
    method ReportData(available: int, ghost base: Log)
      requires i2c.log == RxLevelRead(i2c.oracle, base)
      requires available == Level(!i2c.oracle.fails(Size(base)), Next(i2c.oracle, base, 0)) && available > 0
      modifies this, i2c
      ensures config == old(config) && handlers == old(handlers)
      ensures events == old(events) + [ReceivedEvent(i2c.oracle, base)]
      ensures i2c.log == ReadLog(i2c.oracle, old(i2c.log), available)
      ensures errorFlag <==> ReadFailed(i2c.oracle, old(i2c.log))
    {
      var got, data := Read(available);
      ReceivedEventFrom(i2c.oracle, base, available, data);
      events := events + [DataReceived(data + [0x00], available + 1)];
    }

    /**
     * pollInt: identifies the pending interrupt and acts on it as UartAction
     * says. For received data it reads RXLVL and, when bytes are waiting,
     * reads them and calls the data callback with them followed by a NUL and
     * the length `available + 1`; for transmit space it reads TXLVL and calls
     * the space callback with it. Each callback is skipped, with no bus
     * traffic, when none is registered. It returns 1 for those two cases, 0
     * when nothing is pending or the interrupt is ignored, and -1 for a
     * failed read of IIR or an identification it does not handle.
     */
    method PollInt() returns (r: int)
      modifies this, i2c
      ensures config == old(config) && handlers == old(handlers)
      ensures
        var o := i2c.oracle;
        var k := Size(old(i2c.log));
        var id := IntId(Next(o, old(i2c.log), 0));
        if o.fails(k) then
          r == -1 && errorFlag && events == old(events) && i2c.log == Then(old(i2c.log), Receive(IIR, Next(o, old(i2c.log), 0), false))
        else
          var iirRead := Then(old(i2c.log), Receive(IIR, Next(o, old(i2c.log), 0), true));
          match UartAction(id)
          case Reject => r == -1 && errorFlag && events == old(events) && i2c.log == iirRead
          case Ignore => r == 0 && !errorFlag && events == old(events) && i2c.log == iirRead
          case ReadData =>
            r == 1 && events == old(events) + (
              if handlers.dataReceived && Level(!o.fails(k + 1), Next(o, old(i2c.log), 1)) > 0
              then [ReceivedEvent(o, iirRead)]
              else [])
            && i2c.log == (if handlers.dataReceived then DataLog(o, iirRead) else iirRead)
            && (errorFlag <==> handlers.dataReceived && DataFailed(o, iirRead))
          case ReportSpace =>
            r == 1 && events == old(events) + (
              if handlers.spaceAvailable
              then [SpaceAvailable(Level(!o.fails(k + 1), Next(o, old(i2c.log), 1)))]
              else [])
            && i2c.log == (if handlers.spaceAvailable then SpaceLog(o, iirRead) else iirRead)
            && (errorFlag <==> handlers.spaceAvailable && o.fails(k + 1))
          case ReportPins => false
    {
      errorFlag := false;
      var count := 0;
      var interrupt := WhichInt();
      if interrupt == 0 {
        return interrupt;
      }
      if interrupt < 0 {
        return interrupt;
      }
      var action := UartAction(interrupt);
      if action == ReadData {
        if handlers.dataReceived {
          DeliverData();
        }
        count := count + 1;
      } else if action == ReportSpace {
        if handlers.spaceAvailable {
          var available := TxAvailableSpace();
          events := events + [SpaceAvailable(available)];
        }
        count := count + 1;
      } else if action == Reject {
        errorFlag := true;
        return -1;
      }
      return count;
    }

    /** intIsrDataReceived: registers (or, with `present` false, clears) the data callback. */
    method IntIsrDataReceived(present: bool) returns (r: int)
      modifies this
      ensures r == 1 && handlers == old(handlers).(dataReceived := present)
      ensures errorFlag == old(errorFlag) && config == old(config) && events == old(events)
    {
      handlers := handlers.(dataReceived := present);
      return 1;
    }

    /** intIsrSpaceAvailable: registers (or clears) the space callback. */
    method IntIsrSpaceAvailable(present: bool) returns (r: int)
      modifies this
      ensures r == 1 && handlers == old(handlers).(spaceAvailable := present)
      ensures errorFlag == old(errorFlag) && config == old(config) && events == old(events)
    {
      handlers := handlers.(spaceAvailable := present);
      return 1;
    }

    /** The first half of initUART: 9600 baud, 8N1, both FIFOs reset, FIFO mode 0. */
    method InitLine() returns (r: int)
      modifies this, i2c
      ensures handlers == old(handlers) && events == old(events)
      ensures r == 1 <==> !errorFlag
      ensures r == 1 ==> config == Config(0x00, 0)
      ensures r != 1 ==> r == -1 && FailedLast(i2c.log)
    {
      errorFlag := false;
      var s := SetBaudRate(UART_9600);
      if s < 0 { errorFlag := true; return -1; }
      s := SetDataFormat(UART_8N1);
      if s < 0 { errorFlag := true; return -1; }
      s := ResetFifo(true);
      if s < 0 { errorFlag := true; return -1; }
      s := ResetFifo(false);
      if s < 0 { errorFlag := true; return -1; }
      s := EnableFifo(0);
      if s < 0 { errorFlag := true; return -1; }
      return 1;
    }

    /** The second half of initUART: flow control CONF_FLOW_DISABLED, flow triggers 48/24, modem control, interrupts CONF_INT_DISABLED. */
    method InitFlow() returns (r: int)
      modifies this, i2c
      ensures KeepsState()
      ensures r == 1 <==> !errorFlag
      ensures r != 1 ==> r == -1 && FailedLast(i2c.log)
    {
      errorFlag := false;
      var s := SetFlowControl(flowDisabled);
      if s < 0 { errorFlag := true; return -1; }
      s := SetFlowTriggers(48, 24);
      if s < 0 { errorFlag := true; return -1; }
      s := SetModemControl();
      if s < 0 { errorFlag := true; return -1; }
      s := SetInterrupt(intDisabled);
      if s < 0 { errorFlag := true; return -1; }
      return 1;
    }

    /**
     * initUART: InitLine then InitFlow, stopping at the first step that
     * fails; the configuration it leaves is FIFO mode 0 with an FCR shadow of 0.
     */
    method InitUart() returns (r: int)
      modifies this, i2c
      ensures handlers == old(handlers) && events == old(events)
      ensures r == 1 <==> !errorFlag
      ensures r == 1 ==> config == Config(0x00, 0)
      ensures r != 1 ==> r == -1 && FailedLast(i2c.log)
    {
      r := InitLine();
      if r == 1 {
        r := InitFlow();
      }
    }

    /** init: soft reset, then initUART; it returns 1 whatever they return. */
    method Init() returns (r: int)
      modifies this, i2c
      ensures r == 1
      ensures handlers == old(handlers) && events == old(events)
      ensures !errorFlag ==> config == Config(0x00, 0)
    {
      var s := SoftReset();
      s := InitUart();
      return 1;
    }
  }
}
