// The MCP23017: the common expander driver configured for two ports of
// eight pins each, with the register map used as is.
module Mcp23017 {
  import opened I2c
  import opened Mcp230xx

  /** The MCP23017 constructor: two ports and sixteen pins. */
  method Make(oracle: Oracle) returns (d: PortExpander)
    ensures fresh(d) && fresh(d.i2c) && d.Valid()
    ensures d.ports == 2 && d.pins == 16 && d.registerShift == 0 && d.i2c.oracle == oracle
    ensures var u := InitExistingF(oracle, Empty, CONF_SEQOP, 2, 0);
      d.i2c.log == u.log && d.errorFlag == u.errorFlag
    ensures d.isr == NoIsr && d.events == []
  {
    d := new PortExpander(oracle, 2, 16);
  }

  /**
   * On the MCP23017 pins 0-7 are bits 0-7 of port A and pins 8-15 bits 0-7
   * of port B, each at its own bank's address in the chip's map.
   */
  lemma PinLayout(pin: int, b: Bank)
    requires 0 <= pin < 16
    ensures PinInRange(pin, 16) && PinBit(pin) == pin % 8
    ensures Address(b, PinPort(pin), RegisterShift(2)) == if pin < 8 then BaseA(b) else BaseB(b)
  {
  }

  /**
   * When the chip acknowledges all seven transactions, the constructor's
   * init succeeds: IOCON (0x0A) gets SEQOP (0x20), then DEFVAL, INTCON and
   * GPINTEN of port A (0x06, 0x08, 0x04) and of port B (0x07, 0x09, 0x05)
   * are cleared, disabling every interrupt.
   */
  lemma ConstructorInit(o: Oracle)
    requires forall i :: 0 <= i < 7 ==> !o.fails(i)
    ensures var u := InitExistingF(o, Empty, CONF_SEQOP, 2, RegisterShift(2));
      u.r == 1 && !u.errorFlag
      && u.log == Then(Then(Then(Then(Then(Then(Then(Empty,
        Send(0x0A, 0x20, true)),
        Send(0x06, 0x00, true)),
        Send(0x08, 0x00, true)),
        Send(0x04, 0x00, true)),
        Send(0x07, 0x00, true)),
        Send(0x09, 0x00, true)),
        Send(0x05, 0x00, true))
  {
    InitSpec(o, Empty, CONF_SEQOP, 2, 0);
    InitExistingSpec(o, Empty, CONF_SEQOP, 2, 0);
  }
}
