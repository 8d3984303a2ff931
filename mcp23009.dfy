// The MCP23009: one port of eight pins, whose register map is the
// MCP23017's port-A map halved. Its port-level methods are the common
// driver's with the port fixed at 0.
module Mcp23009 {
  import opened Bytes
  import opened I2c
  import opened Mcp230xx

  /** The port count the MCP23009 constructor passes to the common driver. */
  const WRITTEN_PORTS: PortCount := 0
  /** The port count that selects the halved register map: one port. */
  const PORTS: PortCount := 1
  /** The pins of the MCP23009. */
  const PINS: PinCount := 8

  /**
   * With the port count as written the shift is 0, so the pin methods use
   * the MCP23017's port-A addresses: for every bank but IODIR that is not
   * the MCP23009's register, and for five banks it is past the end of its
   * map (0x0A).
   */
  lemma AsWrittenAddresses(b: Bank, pin: int)
    requires 0 <= pin < PINS && b != IoDir
    ensures RegisterShift(WRITTEN_PORTS) == 0 && PinPort(pin) == GPA
    ensures Address(b, PinPort(pin), RegisterShift(WRITTEN_PORTS)) != Address(b, GPA, RegisterShift(PORTS))
    ensures b == GpPu || b == IntF || b == IntCap || b == Gpio || b == OLat ==>
      Address(b, PinPort(pin), RegisterShift(WRITTEN_PORTS)) > 0x0A
  {
  }

  /**
   * With the port count as written every port-level call on port 0 is out
   * of range: it reports failure without a transaction.
   */
  lemma AsWrittenPortCalls(o: Oracle, log: Log, b: Bank, v: Option<bv8>, mode: string)
    ensures PortWriteF(o, log, 0, WRITTEN_PORTS, RegisterShift(WRITTEN_PORTS), b, v) == Fail(log)
    ensures PortIntModeF(o, log, 0, mode, WRITTEN_PORTS, RegisterShift(WRITTEN_PORTS)) == Fail(log)
    ensures ReadPortF(o, log, 0, WRITTEN_PORTS, RegisterShift(WRITTEN_PORTS)) == ByteOutcome(0xFF, log, true)
    ensures FlagReadF(o, log, 0, WRITTEN_PORTS, RegisterShift(WRITTEN_PORTS)) == ByteOutcome(0xFF, log, true)
    ensures IntPortReadF(o, log, 0, WRITTEN_PORTS, RegisterShift(WRITTEN_PORTS)) == ByteOutcome(0xFF, log, true)
  {
  }

  /**
   * With the port count as written the constructor's init writes SEQOP to
   * 0x0A, the MCP23009's OLAT, and then fails, even when that write is
   * acknowledged.
   */
  lemma AsWrittenInit(o: Oracle)
    requires !o.fails(0)
    ensures InitF(o, Empty, CONF_SEQOP, WRITTEN_PORTS, RegisterShift(WRITTEN_PORTS))
      == Fail(Then(Empty, Send(0x0A, 0x20, true)))
    ensures Address(OLat, GPA, RegisterShift(PORTS)) == 0x0A
  {
  }

  /**
   * With the port count as written pollInt counts sixteen interrupts
   * whatever the chip reports: both INTF reads are out of range and read as
   * 0xFF, and no INTF register is ever read.
   */
  lemma AsWrittenPoll(o: Oracle, h: Handlers, log: Log, errorFlag: bool)
    requires HandlersFit(h)
    ensures PollF(o, h, WRITTEN_PORTS, PINS, RegisterShift(WRITTEN_PORTS), log, errorFlag).count == 16
  {
    PollCount(o, h, WRITTEN_PORTS, PINS, RegisterShift(WRITTEN_PORTS), log, errorFlag);
    CountBelowFull(8);
  }

  /**
   * With one port the constructor's init, when acknowledged, writes SEQOP to
   * IOCON (0x05) and clears DEFVAL (0x03), INTCON (0x04) and GPINTEN (0x02):
   * the MCP23009's own registers.
   */
  lemma CorrectedInit(o: Oracle)
    requires !o.fails(0) && !o.fails(1) && !o.fails(2) && !o.fails(3)
    ensures var u := InitExistingF(o, Empty, CONF_SEQOP, PORTS, RegisterShift(PORTS));
      u.r == 1 && !u.errorFlag
      && u.log == Then(Then(Then(Then(Empty,
        Send(0x05, 0x20, true)),
        Send(0x03, 0x00, true)),
        Send(0x04, 0x00, true)),
        Send(0x02, 0x00, true))
  {
  }

  /**
   * With one port a port-level write or read of port 0 reaches the
   * MCP23009's register for the bank (OLAT 0x0A, GPIO 0x09, ...), the same
   * register the pin methods use for every pin.
   */
  lemma CorrectedPortCalls(o: Oracle, log: Log, b: Bank, v: bv8, pin: int)
    requires 0 <= pin < PINS
    ensures var w := PortWriteF(o, log, 0, PORTS, RegisterShift(PORTS), b, Some(v));
      w.log == Then(log, Send(BaseA(b) / 2, v, !o.fails(Size(log))))
      && (w.r == 1 <==> !o.fails(Size(log)))
    ensures ReadPortF(o, log, 0, PORTS, RegisterShift(PORTS)).log
      == Then(log, Receive(0x09, Next(o, log, 0), !o.fails(Size(log))))
    ensures PinInRange(pin, PINS) && Address(b, PinPort(pin), RegisterShift(PORTS)) == BaseA(b) / 2
  {
  }

  /** A device object: the C++ class gnublin_module_mcp23009. */
  class Device {
    const dev: PortExpander

    /** The common driver, configured for one port of eight pins. */
    predicate Valid()
    {
      dev.Valid() && dev.ports == PORTS && dev.pins == PINS
    }

    /** The constructor, with the port count that selects the MCP23009's register map. */
    constructor(oracle: Oracle)
      ensures Valid() && fresh(dev) && fresh(dev.i2c) && dev.i2c.oracle == oracle
      ensures var u := InitExistingF(oracle, Empty, CONF_SEQOP, PORTS, RegisterShift(PORTS));
        dev.i2c.log == u.log && dev.errorFlag == u.errorFlag
      ensures dev.isr == NoIsr && dev.events == []
    {
      dev := new PortExpander(oracle, PORTS, PINS);
    }

    /** portMode(direction): portMode of port 0. */
    method PortMode(direction: string) returns (r: int)
      requires Valid()
      modifies dev, dev.i2c
      ensures dev.isr == old(dev.isr) && dev.events == old(dev.events)
      ensures Outcome(r, dev.i2c.log, dev.errorFlag)
        == PortWriteF(dev.i2c.oracle, old(dev.i2c.log), 0, PORTS, 1, IoDir, DirectionByte(direction))
    {
      r := dev.PortMode(0, direction);
    }

    /** writePort(value): writePort of port 0. */
    method WritePort(value: bv8) returns (r: int)
      requires Valid()
      modifies dev, dev.i2c
      ensures dev.isr == old(dev.isr) && dev.events == old(dev.events)
      ensures Outcome(r, dev.i2c.log, dev.errorFlag)
        == PortWriteF(dev.i2c.oracle, old(dev.i2c.log), 0, PORTS, 1, OLat, Some(value))
    {
      r := dev.WritePort(0, value);
    }

    /** readPort(): readPort of port 0. */
    method ReadPort() returns (v: bv8)
      requires Valid()
      modifies dev, dev.i2c
      ensures dev.isr == old(dev.isr) && dev.events == old(dev.events)
      ensures ByteOutcome(v, dev.i2c.log, dev.errorFlag) == ReadPortF(dev.i2c.oracle, old(dev.i2c.log), 0, PORTS, 1)
    {
      v := dev.ReadPort(0);
    }

    /** portIntMode(mode): portIntMode of port 0. */
    method PortIntMode(mode: string) returns (r: int)
      requires Valid()
      modifies dev, dev.i2c
      ensures dev.isr == old(dev.isr) && dev.events == old(dev.events)
      ensures Outcome(r, dev.i2c.log, dev.errorFlag) == PortIntModeF(dev.i2c.oracle, old(dev.i2c.log), 0, mode, PORTS, 1)
    {
      r := dev.PortIntMode(0, mode);
    }

    /** portPullUpMode(value): portPullUpMode of port 0. */
    method PortPullUpMode(value: int) returns (r: int)
      requires Valid()
      modifies dev, dev.i2c
      ensures dev.isr == old(dev.isr) && dev.events == old(dev.events)
      ensures Outcome(r, dev.i2c.log, dev.errorFlag)
        == PortWriteF(dev.i2c.oracle, old(dev.i2c.log), 0, PORTS, 1, GpPu, ValueByte(value))
    {
      r := dev.PortPullUpMode(0, value);
    }

    /** portPolarityMode(value): portPolarityMode of port 0. */
    method PortPolarityMode(value: int) returns (r: int)
      requires Valid()
      modifies dev, dev.i2c
      ensures dev.isr == old(dev.isr) && dev.events == old(dev.events)
      ensures Outcome(r, dev.i2c.log, dev.errorFlag)
        == PortWriteF(dev.i2c.oracle, old(dev.i2c.log), 0, PORTS, 1, IPol, ValueByte(value))
    {
      r := dev.PortPolarityMode(0, value);
    }

    /** readIntPort(): readIntPort of port 0. */
    method ReadIntPort() returns (v: bv8)
      requires Valid()
      modifies dev, dev.i2c
      ensures dev.isr == old(dev.isr) && dev.events == old(dev.events)
      ensures ByteOutcome(v, dev.i2c.log, dev.errorFlag) == IntPortReadF(dev.i2c.oracle, old(dev.i2c.log), 0, PORTS, 1)
    {
      v := dev.ReadIntPort(0);
    }

    /** readIntFlagPort(): readIntFlagPort of port 0. */
    method ReadIntFlagPort() returns (v: bv8)
      requires Valid()
      modifies dev, dev.i2c
      ensures dev.isr == old(dev.isr) && dev.events == old(dev.events)
      ensures ByteOutcome(v, dev.i2c.log, dev.errorFlag) == FlagReadF(dev.i2c.oracle, old(dev.i2c.log), 0, PORTS, 1)
    {
      v := dev.ReadIntFlagPort(0);
    }
  }
}
