// The pure parts of the SC16IS7x0 drivers: the byte encodings they compute
// (baud divisor, TCR and TLR packing, interrupt decoding and dispatch, the
// GPIO change flags).
module Sc16Encodings {
  import opened Bytes
  import opened Sc16Registers

  /** `XTAL_FREQ / (baud * 16)`, the divisor setBaudRate computes. */
  function Divisor(baud: nat): int
    requires baud > 0
  {
    XTAL_FREQ / (baud * 16)
  }

  /** For every baud rate setBaudRate accepts, the divisor lies in 4 .. 3072, so it fits the 16-bit DLH:DLL pair. */
  lemma DivisorRange(baud: nat)
    requires UART_300 <= baud <= UART_230400
    ensures 4 <= Divisor(baud) <= 3072
  {
    var m := baud * 16;
    var d := Divisor(baud);
    assert 4800 <= m <= 3686400;
    assert d * m <= XTAL_FREQ < (d + 1) * m;
  }

  /** The byte written to DLL: the divisor truncated to `unsigned char`. */
  function DivisorLow(d: nat): bv8
  {
    (d % 256) as bv8
  }

  /** The byte written to DLH: `divisor >> 8` truncated to `unsigned char`. */
  function DivisorHigh(d: nat): bv8
  {
    ((d / 256) % 256) as bv8
  }

  /** The chip recombines DLH:DLL into the divisor the driver computed, for every divisor below 65536. */
  lemma DivisorSplit(d: nat)
    requires d < 65536
    ensures DivisorHigh(d) as nat * 256 + DivisorLow(d) as nat == d
  {
    ByteValue(d % 256);
    ByteValue(d / 256);
  }

  /** The TCR byte setFlowTriggers writes: `((resume / 4) << 4) | (halt / 4)` truncated to a byte. */
  function TcrByte(resume: nat, halt: nat): bv8
  {
    ((((resume / 4) % 16) as bv8) << 4) | (((halt / 4) % 256) as bv8)
  }

  /** For levels up to 60 the resume level sits in TCR[7:4] and the halt level in TCR[3:0], each divided by 4. */
  lemma TcrByteFields(resume: nat, halt: nat)
    requires resume <= 60 && halt <= 60
    ensures (TcrByte(resume, halt) >> 4) as nat == resume / 4
    ensures (TcrByte(resume, halt) & 0x0F) as nat == halt / 4
  {
    SmallNibble(resume / 4);
    SmallNibble(halt / 4);
    NibblesPack((resume / 4) as bv8, (halt / 4) as bv8);
  }

  /** A number below 16 converts to a byte below 16 with the same value. */
  lemma SmallNibble(x: nat)
    requires x < 16
    ensures (x as bv8) < 16 && (x as bv8) as nat == x
  {
    ByteValue(x);
  }

  /** Two nibbles packed into one byte come back out of its two halves. */
  lemma NibblesPack(hi: bv8, lo: bv8)
    requires hi < 16 && lo < 16
    ensures ((hi << 4) | lo) >> 4 == hi && ((hi << 4) | lo) & 0x0F == lo
  {
  }

  /**
   * The levels setFlowTriggers accepts: both multiples of 4 and the halt
   * level not above the resume level. Its range tests, `(x < 0) && (x > 60)`
   * on an unsigned `x`, can never hold and add nothing.
   */
  predicate FlowTriggersAccepted(resume: nat, halt: nat)
  {
    resume % 4 == 0 && halt % 4 == 0 && halt <= resume
  }

  /** A resume level of 64 passes the checks, and its quotient 16 wraps to 0 in TCR[7:4]. */
  lemma FlowTriggersWrap()
    ensures FlowTriggersAccepted(64, 24)
    ensures TcrByte(64, 24) >> 4 == 0 && TcrByte(64, 24) & 0x0F == 6
  {
  }

  /** The TLR byte the receive-trigger setter writes: `(tlr & 0x0f) | ((level / 4) << 4)` truncated to a byte. */
  function RxTlr(tlr: bv8, level: nat): bv8
  {
    (tlr & 0x0F) | ((((level / 4) % 16) as bv8) << 4)
  }

  /** The TLR byte the transmit-trigger setter writes: `(tlr & 0xf0) | (level / 4)` truncated to a byte. */
  function TxTlr(tlr: bv8, level: nat): bv8
  {
    (tlr & 0xF0) | (((level / 4) % 256) as bv8)
  }

  /** The receive level goes to TLR[7:4] and TLR[3:0] is kept. */
  lemma RxTlrFields(tlr: bv8, level: nat)
    requires level <= 60
    ensures (RxTlr(tlr, level) >> 4) as nat == level / 4
    ensures RxTlr(tlr, level) & 0x0F == tlr & 0x0F
  {
    SmallNibble(level / 4);
    HighNibbleSet(tlr, (level / 4) as bv8);
  }

  /** Putting a nibble into the high half of a byte whose high half is cleared keeps the low half. */
  lemma HighNibbleSet(b: bv8, hi: bv8)
    requires hi < 16
    ensures ((b & 0x0F) | (hi << 4)) >> 4 == hi && ((b & 0x0F) | (hi << 4)) & 0x0F == b & 0x0F
  {
  }

  /** The transmit level goes to TLR[3:0] and TLR[7:4] is kept. */
  lemma TxTlrFields(tlr: bv8, level: nat)
    requires level <= 60
    ensures (TxTlr(tlr, level) & 0x0F) as nat == level / 4
    ensures TxTlr(tlr, level) & 0xF0 == tlr & 0xF0
  {
    SmallNibble(level / 4);
    LowNibbleSet(tlr, (level / 4) as bv8);
  }

  /** Putting a nibble into the low half of a byte whose low half is cleared keeps the high half. */
  lemma LowNibbleSet(b: bv8, lo: bv8)
    requires lo < 16
    ensures ((b & 0xF0) | lo) & 0x0F == lo && ((b & 0xF0) | lo) & 0xF0 == b & 0xF0
  {
  }

  /**
   * The range test of the trigger setters, `(level < 4) && (level > 60)`,
   * never holds, so a level of 64 passes the checks and its quotient spills
   * into the receive nibble of TLR.
   */
  lemma TxTlrSpill()
    ensures !((64 < 4) && (64 > 60)) && 64 % 4 == 0
    ensures TxTlr(0x00, 64) & 0xF0 != 0x00
  {
  }

  /** The interrupt whichInt reports for an IIR value: 0 when IIR[0] says none is pending, else IIR[5:1]. */
  function IntId(iir: bv8): (id: int)
    ensures 0 <= id <= 0x3e && id % 2 == 0
    ensures iir & 0x01 == 0x01 ==> id == 0
    ensures iir & 0x01 == 0x00 ==> id as bv8 == iir & 0x3e
  {
    if iir & 0x01 == 0x01 then 0 else (iir & 0x3e) as int
  }

  /** Every identification the header declares is reported for the IIR value that carries it with IIR[0] clear. */
  lemma IntIdOfHeaderValues(id: int)
    requires id in {INT_RLS, INT_RTOUT, INT_RHR, INT_THR, INT_MODEM, INT_PINS, INT_XOFF, INT_CTSRTS}
    ensures IntId(id as bv8) == id
  {
    InterruptIdentifications();
  }

  /** What a pollInt does for an interrupt identification. */
  datatype Action = ReadData | ReportSpace | ReportPins | Ignore | Reject

  /**
   * The switch of the UART's pollInt: RLS and RTOUT fall through into the
   * RHR case; MODEM, XOFF and CTSRTS are ignored; anything else is refused.
   */
  function UartAction(id: int): Action
  {
    if id == INT_RLS || id == INT_RTOUT || id == INT_RHR then ReadData
    else if id == INT_THR then ReportSpace
    else if id == INT_MODEM || id == INT_XOFF || id == INT_CTSRTS then Ignore
    else Reject
  }

  /** The switch of the GPIO pollInt: RLS and RTOUT are ignored, and INT_PINS reports the pins. */
  function GpioAction(id: int): Action
  {
    if id == INT_RHR then ReadData
    else if id == INT_THR then ReportSpace
    else if id == INT_PINS then ReportPins
    else if id == INT_RLS || id == INT_RTOUT || id == INT_MODEM || id == INT_XOFF || id == INT_CTSRTS then Ignore
    else Reject
  }

  /** The two switches agree except on RLS, RTOUT and PINS; the UART one refuses INT_PINS. */
  lemma ActionsCompared(id: int)
    ensures id !in {INT_RLS, INT_RTOUT, INT_PINS} ==> UartAction(id) == GpioAction(id)
    ensures UartAction(INT_RLS) == UartAction(INT_RTOUT) == ReadData
    ensures GpioAction(INT_RLS) == GpioAction(INT_RTOUT) == Ignore
    ensures UartAction(INT_PINS) == Reject && GpioAction(INT_PINS) == ReportPins
  {
  }

  /** An IIR value with IIR[0] clear and one of the other defined codes never reaches the Reject branch. */
  lemma DefinedIdsAccepted(iir: bv8)
    requires iir & 0x01 == 0 && (iir & 0x3e) as int in {INT_RLS, INT_RTOUT, INT_RHR, INT_THR, INT_PINS, INT_XOFF, INT_CTSRTS}
    ensures GpioAction(IntId(iir)) != Reject
    ensures IntId(iir) != INT_PINS ==> UartAction(IntId(iir)) != Reject
  {
  }

  /**
   * The change flags readIntFlagPort returns:
   * `(state & ~dir & en) ^ (latch & ~dir & en)`.
   */
  function IntFlags(state: bv8, latch: bv8, dir: bv8, en: bv8): bv8
  {
    (state & !dir & en) ^ (latch & !dir & en)
  }

  /**
   * A pin is flagged exactly when it is an input (IODIR bit clear), its
   * interrupt is enabled, and its state differs from the latch.
   */
  lemma IntFlagsSpec(state: bv8, latch: bv8, dir: bv8, en: bv8, pin: nat)
    requires pin < 8
    ensures Bit(IntFlags(state, latch, dir, en), pin)
            <==> !Bit(dir, pin) && Bit(en, pin) && Bit(state, pin) != Bit(latch, pin)
  {
    IntFlagsFactored(state, latch, dir, en);
    BitMasked(state ^ latch, dir, en, pin);
    BitXor(state, latch, pin);
  }

  lemma IntFlagsFactored(state: bv8, latch: bv8, dir: bv8, en: bv8)
    ensures IntFlags(state, latch, dir, en) == (state ^ latch) & !dir & en
  {
  }

  /** Flags read against the state just latched are all clear. */
  lemma IntFlagsSame(state: bv8, dir: bv8, en: bv8)
    ensures IntFlags(state, state, dir, en) == 0
  {
  }
}
