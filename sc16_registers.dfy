// The SC16IS7x0 register map as the driver header declares it: each register
// is selected by a 4-bit index sent in bits 6:3 of the I2C sub-address
// (section 10.4 of the SC16IS750 datasheet), and several registers share an
// index, told apart by the contents of LCR, MCR and EFR at the time of the
// access, as the header notes beside each register.
module Sc16Registers {
  import opened Bytes

  // Sub-addresses, the register index shifted left by three.
  const RHR: nat := 0x00
  const THR: nat := 0x00
  const IER: nat := 0x08
  const IIR: nat := 0x10
  const FCR: nat := 0x10
  const LCR: nat := 0x18
  const MCR: nat := 0x20
  const LSR: nat := 0x28
  const MSR: nat := 0x30
  const SPR: nat := 0x38
  const TCR: nat := 0x30
  const TLR: nat := 0x38
  const TXLVL: nat := 0x40
  const RXLVL: nat := 0x48
  const IODIR: nat := 0x50
  const IOSTATE: nat := 0x58
  const IOINTEN: nat := 0x60
  const IOCTRL: nat := 0x70
  const EFCRF: nat := 0x78
  const DLL: nat := 0x00
  const DLH: nat := 0x08
  const EFR: nat := 0x10
  const XON1: nat := 0x20
  const XON2: nat := 0x28
  const XOFF1: nat := 0x30
  const XOFF2: nat := 0x38

  /** Crystal frequency the baud divisor is computed from. */
  const XTAL_FREQ: nat := 14745600

  // Baud rates.
  const UART_300: nat := 300
  const UART_600: nat := 600
  const UART_1200: nat := 1200
  const UART_2400: nat := 2400
  const UART_4800: nat := 4800
  const UART_9600: nat := 9600
  const UART_14400: nat := 14400
  const UART_19200: nat := 19200
  const UART_28800: nat := 28800
  const UART_38400: nat := 38400
  const UART_57600: nat := 57600
  const UART_115200: nat := 115200
  const UART_230400: nat := 230400

  // Data formats: word length, parity (None, Odd, Even) and stop bits, as LCR values.
  const UART_5N1: bv8 := 0x00
  const UART_6N1: bv8 := 0x01
  const UART_7N1: bv8 := 0x02
  const UART_8N1: bv8 := 0x03
  const UART_5N2: bv8 := 0x04
  const UART_6N2: bv8 := 0x05
  const UART_7N2: bv8 := 0x06
  const UART_8N2: bv8 := 0x07
  const UART_5O1: bv8 := 0x08
  const UART_6O1: bv8 := 0x09
  const UART_7O1: bv8 := 0x0A
  const UART_8O1: bv8 := 0x0B
  const UART_5O2: bv8 := 0x0C
  const UART_6O2: bv8 := 0x0D
  const UART_7O2: bv8 := 0x0E
  const UART_8O2: bv8 := 0x0F
  const UART_5E1: bv8 := 0x18
  const UART_6E1: bv8 := 0x19
  const UART_7E1: bv8 := 0x1A
  const UART_8E1: bv8 := 0x1B
  const UART_5E2: bv8 := 0x1C
  const UART_6E2: bv8 := 0x1D
  const UART_7E2: bv8 := 0x1E
  const UART_8E2: bv8 := 0x1F

  // Interrupt identifications, as IIR & 0x3e.
  const INT_RLS: int := 0x06
  const INT_RTOUT: int := 0x0c
  const INT_RHR: int := 0x04
  const INT_THR: int := 0x02
  const INT_MODEM: int := 0x00
  const INT_PINS: int := 0x30
  const INT_XOFF: int := 0x10
  const INT_CTSRTS: int := 0x20

  // I/O configuration values.
  const CONF_IO_DFLT: bv8 := 0x00
  const CONF_IO_LATCH: bv8 := 0x01

  // Interrupt enable masks for IER.
  const CONF_INT_DFLT: bv8 := 0x00
  const CONF_INT_CTSEN: bv8 := 0x80
  const CONF_INT_RTSEN: bv8 := 0x40
  const CONF_INT_XOFFEN: bv8 := 0x20
  const CONF_INT_MSEN: bv8 := 0x08
  const CONF_INT_RLSEN: bv8 := 0x04
  const CONF_INT_THREN: bv8 := 0x02
  const CONF_INT_RHREN: bv8 := 0x01

  /** The distinct sub-addresses of the header. */
  const SubAddresses: seq<nat> := [RHR, IER, IIR, LCR, MCR, LSR, MSR, SPR, TXLVL, RXLVL, IODIR, IOSTATE, IOINTEN, IOCTRL, EFCRF]

  /** Every sub-address is its datasheet index shifted left by three (times 8), so a multiple of 8 no larger than 0x78. */
  lemma SubAddressesAreShiftedIndices()
    ensures RHR == 0x00 * 8 && THR == 0x00 * 8 && IER == 0x01 * 8 && IIR == 0x02 * 8
    ensures FCR == 0x02 * 8 && LCR == 0x03 * 8 && MCR == 0x04 * 8 && LSR == 0x05 * 8
    ensures MSR == 0x06 * 8 && SPR == 0x07 * 8 && TCR == 0x06 * 8 && TLR == 0x07 * 8
    ensures TXLVL == 0x08 * 8 && RXLVL == 0x09 * 8 && IODIR == 0x0A * 8 && IOSTATE == 0x0B * 8
    ensures IOINTEN == 0x0C * 8 && IOCTRL == 0x0E * 8 && EFCRF == 0x0F * 8
    ensures DLL == 0x00 * 8 && DLH == 0x01 * 8 && EFR == 0x02 * 8
    ensures XON1 == 0x04 * 8 && XON2 == 0x05 * 8 && XOFF1 == 0x06 * 8 && XOFF2 == 0x07 * 8
    ensures forall i :: 0 <= i < |SubAddresses| ==> SubAddresses[i] % 8 == 0 && SubAddresses[i] <= 0x78
  {
  }

  /** The sub-addresses shared by several registers, and LCR, which shares its own with none. */
  lemma SharedSubAddresses()
    ensures RHR == THR == DLL == 0x00
    ensures IER == DLH == 0x08
    ensures IIR == FCR == EFR == 0x10
    ensures MCR == XON1 == 0x20
    ensures LSR == XON2 == 0x28
    ensures MSR == TCR == XOFF1 == 0x30
    ensures SPR == TLR == XOFF2 == 0x38
    ensures LCR == 0x18
    ensures LCR !in {RHR, IER, IIR, MCR, LSR, MSR, SPR, TXLVL, RXLVL, IODIR, IOSTATE, IOINTEN, IOCTRL, EFCRF}
  {
  }

  /** The baud constants run from 300 to 230400, in increasing order. */
  lemma BaudConstants()
    ensures UART_300 < UART_600 < UART_1200 < UART_2400 < UART_4800 < UART_9600 < UART_14400
    ensures UART_14400 < UART_19200 < UART_28800 < UART_38400 < UART_57600 < UART_115200 < UART_230400
    ensures XTAL_FREQ == 14745600
  {
  }

  /** The interrupt identifications are distinct even values inside IIR[5:1], MODEM being 0. */
  lemma InterruptIdentifications()
    ensures forall id :: id in [INT_RLS, INT_RTOUT, INT_RHR, INT_THR, INT_MODEM, INT_PINS, INT_XOFF, INT_CTSRTS]
                         ==> 0 <= id < 0x40 && (id as bv8) & 0x3e == id as bv8
    ensures |{INT_RLS, INT_RTOUT, INT_RHR, INT_THR, INT_MODEM, INT_PINS, INT_XOFF, INT_CTSRTS}| == 8
    ensures INT_MODEM == 0
  {
  }

  /** The IER enable masks are eight distinct single bits, and the default enables none. */
  lemma InterruptEnableMasks()
    ensures CONF_INT_RHREN == Mask(0) && CONF_INT_THREN == Mask(1) && CONF_INT_RLSEN == Mask(2)
    ensures CONF_INT_MSEN == Mask(3) && CONF_INT_XOFFEN == Mask(5) && CONF_INT_RTSEN == Mask(6)
    ensures CONF_INT_CTSEN == Mask(7)
    ensures CONF_INT_DFLT == 0
  {
  }

  /** Parity of a data format. */
  datatype Parity = NoParity | Odd | Even

  /** A data format: 5 to 8 data bits, 1 or 2 stop bits and a parity. */
  datatype Format = Format(wordLength: nat, stopBits: nat, parity: Parity)

  predicate ValidFormat(f: Format)
  {
    5 <= f.wordLength <= 8 && 1 <= f.stopBits <= 2
  }

  /**
   * The LCR value of a data format: bits 1:0 hold the word length minus 5,
   * bit 2 a second stop bit, bit 3 parity enable and bit 4 even parity.
   */
  function FormatCode(f: Format): (c: bv8)
    requires ValidFormat(f)
    ensures c & 0xE0 == 0
  {
    ((f.wordLength - 5) as bv8)
      | (if f.stopBits == 2 then 0x04 else 0x00)
      | (match f.parity case NoParity => 0x00 case Odd => 0x08 case Even => 0x18)
  }

  /** The data format an LCR value selects. */
  function DecodeFormat(c: bv8): (f: Format)
    ensures ValidFormat(f)
  {
    Format((c & 0x03) as nat + 5,
           if c & 0x04 != 0 then 2 else 1,
           if c & 0x08 == 0 then NoParity else if c & 0x10 != 0 then Even else Odd)
  }

  /** Decoding the code of a format gives the format back. */
  lemma DecodeFormatCode(f: Format)
    requires ValidFormat(f)
    ensures DecodeFormat(FormatCode(f)) == f
  {
    var w := (f.wordLength - 5) as bv8;
    assert w & 0x03 == w && w & 0x04 == 0 && w & 0x08 == 0 && w & 0x10 == 0 by {
      assert w == 0 || w == 1 || w == 2 || w == 3;
    }
    assert (w & 0x03) as nat == f.wordLength - 5 by {
      assert f.wordLength == 5 || f.wordLength == 6 || f.wordLength == 7 || f.wordLength == 8;
    }
  }

  /** Every header data-format constant is the code of the format its name spells. */
  lemma FormatConstants()
    ensures UART_5N1 == FormatCode(Format(5, 1, NoParity)) && UART_6N1 == FormatCode(Format(6, 1, NoParity))
    ensures UART_7N1 == FormatCode(Format(7, 1, NoParity)) && UART_8N1 == FormatCode(Format(8, 1, NoParity))
    ensures UART_5N2 == FormatCode(Format(5, 2, NoParity)) && UART_6N2 == FormatCode(Format(6, 2, NoParity))
    ensures UART_7N2 == FormatCode(Format(7, 2, NoParity)) && UART_8N2 == FormatCode(Format(8, 2, NoParity))
    ensures UART_5O1 == FormatCode(Format(5, 1, Odd)) && UART_6O1 == FormatCode(Format(6, 1, Odd))
    ensures UART_7O1 == FormatCode(Format(7, 1, Odd)) && UART_8O1 == FormatCode(Format(8, 1, Odd))
    ensures UART_5O2 == FormatCode(Format(5, 2, Odd)) && UART_6O2 == FormatCode(Format(6, 2, Odd))
    ensures UART_7O2 == FormatCode(Format(7, 2, Odd)) && UART_8O2 == FormatCode(Format(8, 2, Odd))
    ensures UART_5E1 == FormatCode(Format(5, 1, Even)) && UART_6E1 == FormatCode(Format(6, 1, Even))
    ensures UART_7E1 == FormatCode(Format(7, 1, Even)) && UART_8E1 == FormatCode(Format(8, 1, Even))
    ensures UART_5E2 == FormatCode(Format(5, 2, Even)) && UART_6E2 == FormatCode(Format(6, 2, Even))
    ensures UART_7E2 == FormatCode(Format(7, 2, Even)) && UART_8E2 == FormatCode(Format(8, 2, Even))
  {
  }

  /** DLL and DLH replace RHR/THR and IER while LCR[7] is set. */
  predicate DivisorLatch(lcr: bv8)
  {
    lcr & 0x80 != 0
  }

  /** TCR and TLR replace MSR and SPR while MCR[2] and EFR[4] are both set. */
  predicate TcrTlrEnabled(mcr: bv8, efr: bv8)
  {
    mcr & 0x04 != 0 && efr & 0x10 != 0
  }

  /**
   * The contents of the registers that keep what is written to them. `ioState`
   * is the output latch a write of IOSTATE sets; a read of IOSTATE returns
   * the level of the pins, which the hardware supplies.
   */
  datatype Regs = Regs(
    ier: bv8, fcr: bv8, lcr: bv8, mcr: bv8, spr: bv8, tcr: bv8, tlr: bv8,
    ioDir: bv8, ioState: bv8, ioIntEn: bv8, ioCtrl: bv8, efcr: bv8,
    dll: bv8, dlh: bv8, efr: bv8, xon1: bv8, xon2: bv8, xoff1: bv8, xoff2: bv8)

  /**
   * The registers after the chip acknowledges a write of `v` at `addr`,
   * following the access conditions the header notes beside each register:
   * while LCR is 0xBF the enhanced registers (EFR, XON1/2, XOFF1/2) answer at
   * indices 2 and 4 to 7; while LCR[7] is set DLL and DLH answer at indices 0
   * and 1; TCR and TLR answer at indices 6 and 7 under TcrTlrEnabled. A write
   * to THR, to a read-only register or to an unused index stores nothing.
   */
  function AfterSend(f: Regs, addr: nat, v: bv8): Regs
  {
    match addr
    case 0x00 => if DivisorLatch(f.lcr) then f.(dll := v) else f
    case 0x08 => if DivisorLatch(f.lcr) then f.(dlh := v) else f.(ier := v)
    case 0x10 => if f.lcr == 0xBF then f.(efr := v) else f.(fcr := v)
    case 0x18 => f.(lcr := v)
    case 0x20 => if f.lcr == 0xBF then f.(xon1 := v) else f.(mcr := v)
    case 0x28 => if f.lcr == 0xBF then f.(xon2 := v) else f
    case 0x30 => if f.lcr == 0xBF then f.(xoff1 := v) else if TcrTlrEnabled(f.mcr, f.efr) then f.(tcr := v) else f
    case 0x38 => if f.lcr == 0xBF then f.(xoff2 := v) else if TcrTlrEnabled(f.mcr, f.efr) then f.(tlr := v) else f.(spr := v)
    case 0x50 => f.(ioDir := v)
    case 0x58 => f.(ioState := v)
    case 0x60 => f.(ioIntEn := v)
    case 0x70 => f.(ioCtrl := v)
    case 0x78 => f.(efcr := v)
    case _ => f
  }

  /**
   * What a read at `addr` returns under the same access conditions: the
   * contents of a register that keeps what is written to it, and otherwise
   * `hw`, what the hardware supplies (RHR, IIR, LSR, MSR, TXLVL, RXLVL,
   * IOSTATE, unused indices).
   */
  function ReadValue(f: Regs, addr: nat, hw: bv8): bv8
  {
    match addr
    case 0x00 => if DivisorLatch(f.lcr) then f.dll else hw
    case 0x08 => if DivisorLatch(f.lcr) then f.dlh else f.ier
    case 0x10 => if f.lcr == 0xBF then f.efr else hw
    case 0x18 => f.lcr
    case 0x20 => if f.lcr == 0xBF then f.xon1 else f.mcr
    case 0x28 => if f.lcr == 0xBF then f.xon2 else hw
    case 0x30 => if f.lcr == 0xBF then f.xoff1 else if TcrTlrEnabled(f.mcr, f.efr) then f.tcr else hw
    case 0x38 => if f.lcr == 0xBF then f.xoff2 else if TcrTlrEnabled(f.mcr, f.efr) then f.tlr else f.spr
    case 0x50 => f.ioDir
    case 0x60 => f.ioIntEn
    case 0x70 => f.ioCtrl
    case 0x78 => f.efcr
    case _ => hw
  }

  /** The sub-addresses at which, in register state `f`, a read/write register answers. */
  predicate ReadWrite(f: Regs, addr: nat)
  {
    || addr == 0x08 || addr == 0x18 || addr == 0x20 || addr == 0x38
    || addr == 0x50 || addr == 0x60 || addr == 0x70 || addr == 0x78
    || (addr == 0x00 && DivisorLatch(f.lcr))
    || ((addr == 0x10 || addr == 0x28) && f.lcr == 0xBF)
    || (addr == 0x30 && (f.lcr == 0xBF || TcrTlrEnabled(f.mcr, f.efr)))
  }

  /** Reading back a read/write register returns what was just written to it. */
  lemma WriteThenRead(f: Regs, addr: nat, v: bv8, hw: bv8)
    requires ReadWrite(f, addr)
    ensures ReadValue(AfterSend(f, addr, v), addr, hw) == v
  {
    if addr == 0x00 || addr == 0x08 {
      WriteThenReadLatch(f, addr, v, hw);
    } else if addr == 0x30 || addr == 0x38 {
      WriteThenReadTrigger(f, addr, v, hw);
    } else if addr == 0x10 || addr == 0x20 || addr == 0x28 {
      WriteThenReadEnhanced(f, addr, v, hw);
    } else {
      WriteThenReadPlain(f, addr, v, hw);
    }
  }

  // WriteThenRead case by case: the solver does poorly splitting the cases itself.

  lemma WriteThenReadLatch(f: Regs, addr: nat, v: bv8, hw: bv8)
    requires ReadWrite(f, addr) && (addr == 0x00 || addr == 0x08)
    ensures ReadValue(AfterSend(f, addr, v), addr, hw) == v
  {
    if DivisorLatch(f.lcr) {
      assert ReadValue(AfterSend(f, addr, v), addr, hw) == v;
    } else {
      assert ReadValue(AfterSend(f, addr, v), addr, hw) == v;
    }
  }

  lemma WriteThenReadTrigger(f: Regs, addr: nat, v: bv8, hw: bv8)
    requires ReadWrite(f, addr) && (addr == 0x30 || addr == 0x38)
    ensures ReadValue(AfterSend(f, addr, v), addr, hw) == v
  {
    if addr == 0x30 {
      WriteThenReadTcr(f, v, hw);
    } else {
      WriteThenReadTlr(f, v, hw);
    }
  }

  lemma WriteThenReadTcr(f: Regs, v: bv8, hw: bv8)
    requires ReadWrite(f, 0x30)
    ensures ReadValue(AfterSend(f, 0x30, v), 0x30, hw) == v
  {
    if f.lcr == 0xBF {
      assert AfterSend(f, 0x30, v) == f.(xoff1 := v);
    } else {
      assert AfterSend(f, 0x30, v) == f.(tcr := v);
    }
  }

  lemma WriteThenReadTlr(f: Regs, v: bv8, hw: bv8)
    ensures ReadValue(AfterSend(f, 0x38, v), 0x38, hw) == v
  {
    if f.lcr == 0xBF {
      assert AfterSend(f, 0x38, v) == f.(xoff2 := v);
    } else if TcrTlrEnabled(f.mcr, f.efr) {
      WriteThenReadTlrEnabled(f, v, hw);
    } else {
      WriteThenReadSpr(f, v, hw);
    }
  }

  lemma WriteThenReadTlrEnabled(f: Regs, v: bv8, hw: bv8)
    requires f.lcr != 0xBF && TcrTlrEnabled(f.mcr, f.efr)
    ensures ReadValue(AfterSend(f, 0x38, v), 0x38, hw) == v
  {
    assert AfterSend(f, 0x38, v) == f.(tlr := v);
  }

  lemma WriteThenReadSpr(f: Regs, v: bv8, hw: bv8)
    requires f.lcr != 0xBF && !TcrTlrEnabled(f.mcr, f.efr)
    ensures ReadValue(AfterSend(f, 0x38, v), 0x38, hw) == v
  {
    assert AfterSend(f, 0x38, v) == f.(spr := v);
  }

  lemma WriteThenReadEnhanced(f: Regs, addr: nat, v: bv8, hw: bv8)
    requires ReadWrite(f, addr) && (addr == 0x10 || addr == 0x20 || addr == 0x28)
    ensures ReadValue(AfterSend(f, addr, v), addr, hw) == v
  {
    if f.lcr == 0xBF {
      assert ReadValue(AfterSend(f, addr, v), addr, hw) == v;
    } else {
      assert ReadValue(AfterSend(f, addr, v), addr, hw) == v;
    }
  }

  lemma WriteThenReadPlain(f: Regs, addr: nat, v: bv8, hw: bv8)
    requires addr == 0x18 || addr == 0x50 || addr == 0x60 || addr == 0x70 || addr == 0x78
    ensures ReadValue(AfterSend(f, addr, v), addr, hw) == v
  {
  }

  /** A write at a FIFO-level sub-address, or at the unused index 0x0D, changes nothing. */
  lemma ReadOnlyWrite(f: Regs, addr: nat, v: bv8)
    requires addr == TXLVL || addr == RXLVL || addr == 0x68
    ensures AfterSend(f, addr, v) == f
  {
  }
}
