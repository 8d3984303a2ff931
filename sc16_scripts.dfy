// The bus scripts the SC16IS7x0 UART methods run on their success paths,
// most recent transaction last, and what each script does to the chip's
// stored registers when the bytes it reads are the chip's own contents.
// Every banked access brackets its work between saving LCR (and EFR) and
// restoring them: the restore shows up below as LCR and EFR ending as they
// started.
module Sc16Scripts {
  import opened Bytes
  import opened I2c
  import opened Sc16Registers
  import opened Sc16Bus
  import opened Sc16Encodings

  // The scripts; each starts from the log `log` of what came before.

  /** softReset: read IOCTRL, write it back with bit 3 (software reset) set. */
  function SoftResetScript(log: Log, io: bv8): Log
  {
    Then(Then(log, Receive(IOCTRL, io, true)), Send(IOCTRL, io | 0x08, true))
  }

  /** setBaudRate: read LCR, set LCR[7], write DLL and DLH, restore LCR. */
  function BaudScript(log: Log, lcr: bv8, lsb: bv8, msb: bv8): Log
  {
    Then(Then(Then(Then(Then(log,
      Receive(LCR, lcr, true)),
      Send(LCR, lcr | 0x80, true)),
      Send(DLL, lsb, true)),
      Send(DLH, msb, true)),
      Send(LCR, lcr, true))
  }

  /** setDataFormat: read LCR (the value is not used), write the format code to LCR. */
  function FormatScript(log: Log, lcr: bv8, format: bv8): Log
  {
    Then(Then(log, Receive(LCR, lcr, true)), Send(LCR, format, true))
  }

  /** The opening of every enhanced-register window: save LCR, set LCR to 0xBF, save EFR, set EFR[4]. */
  function Enter(log: Log, lcr: bv8, efr: bv8): Log
  {
    Then(Then(Then(Then(log,
      Receive(LCR, lcr, true)),
      Send(LCR, 0xBF, true)),
      Receive(EFR, efr, true)),
      Send(EFR, efr | 0x10, true))
  }

  /** The closing of an enhanced-register window: restore EFR, then LCR. */
  function Leave(log: Log, lcr: bv8, efr: bv8): Log
  {
    Then(Then(log, Send(EFR, efr, true)), Send(LCR, lcr, true))
  }

  /** setModemControl: write 0x04 at the MCR sub-address inside the window. */
  function ModemScript(log: Log, lcr: bv8, efr: bv8): Log
  {
    Leave(Then(Enter(log, lcr, efr), Send(MCR, 0x04, true)), lcr, efr)
  }

  /** setFlowControl: save LCR, set LCR to 0xBF, write EFR, restore LCR (EFR is neither read nor restored). */
  function FlowScript(log: Log, lcr: bv8, flow: bv8): Log
  {
    Then(Then(Then(Then(log,
      Receive(LCR, lcr, true)),
      Send(LCR, 0xBF, true)),
      Send(EFR, flow, true)),
      Send(LCR, lcr, true))
  }

  /** setFlowTriggers: write the TCR byte inside the window. */
  function TriggersScript(log: Log, lcr: bv8, efr: bv8, tcr: bv8): Log
  {
    Leave(Then(Enter(log, lcr, efr), Send(TCR, tcr, true)), lcr, efr)
  }

  /** setInterrupt: write the upper nibble of the IER value inside the window, then the whole value after it. */
  function InterruptScript(log: Log, lcr: bv8, efr: bv8, ier: bv8): Log
  {
    Then(Leave(Then(Enter(log, lcr, efr), Send(IER, ier & 0xF0, true)), lcr, efr), Send(IER, ier, true))
  }

  /**
   * The trigger-level setters: inside the window, read TLR, write it back
   * updated, then write the FCR shadow with its upper nibble cleared.
   */
  function TriggerLevelScript(log: Log, lcr: bv8, efr: bv8, tlr: bv8, newTlr: bv8, fcr: bv8): Log
  {
    Leave(Then(Then(Then(Enter(log, lcr, efr),
      Receive(TLR, tlr, true)),
      Send(TLR, newTlr, true)),
      Send(FCR, fcr, true)), lcr, efr)
  }

  /** enableLoopback: read MCR, write it back with bit 4 (loopback) set. */
  function LoopbackScript(log: Log, mcr: bv8): Log
  {
    Then(Then(log, Receive(MCR, mcr, true)), Send(MCR, mcr | 0x10, true))
  }

  /**
   * The reads of the scripts return stored contents: LCR always, IOCTRL
   * always, MCR outside the enhanced bank, and EFR and the register at the
   * TLR sub-address (XOFF2) inside it.
   */
  lemma ReadsStored(h: Regs, hw: bv8)
    ensures ReadValue(h, LCR, hw) == h.lcr && ReadValue(h, IOCTRL, hw) == h.ioCtrl
    ensures h.lcr != 0xBF ==> ReadValue(h, MCR, hw) == h.mcr
    ensures h.lcr == 0xBF ==> ReadValue(h, EFR, hw) == h.efr && ReadValue(h, TLR, hw) == h.xoff2
  {
  }

  // The two halves of the enhanced-register window.

  /** Opening the window leaves LCR at 0xBF and EFR with bit 4 set. */
  lemma EnterEffect(f: Regs, log: Log, h: Regs)
    requires Replay(f, log) == h
    ensures Replay(f, Enter(log, h.lcr, h.efr)) == h.(lcr := 0xBF, efr := h.efr | 0x10)
  {
    var e2 := Then(Then(log, Receive(LCR, h.lcr, true)), Send(LCR, 0xBF, true));
    assert Replay(f, e2) == h.(lcr := 0xBF);
  }

  /** Closing the window from LCR = 0xBF puts back the saved EFR and LCR. */
  lemma LeaveEffect(f: Regs, log: Log, h: Regs, lcr: bv8, efr: bv8)
    requires Replay(f, log) == h && h.lcr == 0xBF
    ensures Replay(f, Leave(log, lcr, efr)) == h.(efr := efr, lcr := lcr)
  {
  }

  // What each script does to the stored registers, starting from the
  // registers `Replay(f, log)` and reading the values they hold.

  /** softReset sets IOCTRL[3] and changes nothing else. */
  lemma SoftResetEffect(f: Regs, log: Log)
    ensures var h := Replay(f, log);
      Replay(f, SoftResetScript(log, h.ioCtrl)) == h.(ioCtrl := h.ioCtrl | 0x08)
  {
  }

  /** setBaudRate stores the two divisor bytes in DLL and DLH; LCR ends as it was and nothing else changes. */
  lemma BaudEffect(f: Regs, log: Log, lsb: bv8, msb: bv8)
    ensures var h := Replay(f, log);
      Replay(f, BaudScript(log, h.lcr, lsb, msb)) == h.(dll := lsb, dlh := msb)
  {
    var h := Replay(f, log);
    var e2 := Then(Then(log, Receive(LCR, h.lcr, true)), Send(LCR, h.lcr | 0x80, true));
    var e4 := Then(Then(e2, Send(DLL, lsb, true)), Send(DLH, msb, true));
    LatchOpened(h.lcr);
    LcrStep(f, Then(log, Receive(LCR, h.lcr, true)), h.lcr | 0x80);
    LatchedStep(f, e2, lsb, msb);
    LcrStep(f, e4, h.lcr);
    assert BaudScript(log, h.lcr, lsb, msb) == Then(e4, Send(LCR, h.lcr, true));
  }

  /** A write at the LCR sub-address stores LCR, in any bank. */
  lemma LcrStep(f: Regs, log: Log, v: bv8)
    ensures Replay(f, Then(log, Send(LCR, v, true))) == Replay(f, log).(lcr := v)
  {
  }

  /** Setting LCR[7] opens the divisor latch. */
  lemma LatchOpened(lcr: bv8)
    ensures DivisorLatch(lcr | 0x80)
  {
  }

  /** With the divisor latch open, writes at the DLL and DLH sub-addresses store DLL and DLH. */
  lemma LatchedStep(f: Regs, log: Log, lsb: bv8, msb: bv8)
    requires DivisorLatch(Replay(f, log).lcr)
    ensures Replay(f, Then(Then(log, Send(DLL, lsb, true)), Send(DLH, msb, true)))
      == Replay(f, log).(dll := lsb, dlh := msb)
  {
  }

  /** setDataFormat leaves LCR equal to the format code and changes nothing else. */
  lemma FormatEffect(f: Regs, log: Log, format: bv8)
    ensures var h := Replay(f, log);
      Replay(f, FormatScript(log, h.lcr, format)) == h.(lcr := format)
  {
  }

  /**
   * setModemControl's write of 0x04 is made while LCR is 0xBF, so it reaches
   * XON1 rather than MCR; LCR and EFR end as they were and MCR is unchanged.
   */
  lemma ModemEffect(f: Regs, log: Log)
    ensures var h := Replay(f, log);
      Replay(f, ModemScript(log, h.lcr, h.efr)) == h.(xon1 := 0x04)
  {
    var h := Replay(f, log);
    var e4 := Enter(log, h.lcr, h.efr);
    var h4 := h.(lcr := 0xBF, efr := h.efr | 0x10);
    EnterEffect(f, log, h);
    assert Replay(f, Then(e4, Send(MCR, 0x04, true))) == h4.(xon1 := 0x04);
    LeaveEffect(f, Then(e4, Send(MCR, 0x04, true)), h4.(xon1 := 0x04), h.lcr, h.efr);
  }

  /** setFlowControl leaves EFR equal to the flow code with LCR restored. */
  lemma FlowEffect(f: Regs, log: Log, flow: bv8)
    ensures var h := Replay(f, log);
      Replay(f, FlowScript(log, h.lcr, flow)) == h.(efr := flow)
  {
    var h := Replay(f, log);
    var e2 := Then(Then(log, Receive(LCR, h.lcr, true)), Send(LCR, 0xBF, true));
    assert Replay(f, e2) == h.(lcr := 0xBF);
  }

  /** setFlowTriggers' TCR byte is written while LCR is 0xBF, so it reaches XOFF1; LCR and EFR end as they were. */
  lemma TriggersEffect(f: Regs, log: Log, tcr: bv8)
    ensures var h := Replay(f, log);
      Replay(f, TriggersScript(log, h.lcr, h.efr, tcr)) == h.(xoff1 := tcr)
  {
    var h := Replay(f, log);
    var e4 := Enter(log, h.lcr, h.efr);
    var h4 := h.(lcr := 0xBF, efr := h.efr | 0x10);
    EnterEffect(f, log, h);
    assert Replay(f, Then(e4, Send(TCR, tcr, true))) == h4.(xoff1 := tcr);
    LeaveEffect(f, Then(e4, Send(TCR, tcr, true)), h4.(xoff1 := tcr), h.lcr, h.efr);
  }

  /**
   * setInterrupt: the upper nibble written inside the window reaches DLH
   * (0xBF has bit 7 set); with LCR[7] clear on entry, the final write stores
   * the whole value in IER. LCR and EFR end as they were.
   */
  lemma InterruptEffect(f: Regs, log: Log, ier: bv8)
    requires !DivisorLatch(Replay(f, log).lcr)
    ensures var h := Replay(f, log);
      Replay(f, InterruptScript(log, h.lcr, h.efr, ier)) == h.(dlh := ier & 0xF0, ier := ier)
  {
    var h := Replay(f, log);
    var e4 := Enter(log, h.lcr, h.efr);
    var h4 := h.(lcr := 0xBF, efr := h.efr | 0x10);
    var e5 := Then(e4, Send(IER, ier & 0xF0, true));
    EnterEffect(f, log, h);
    assert Replay(f, e5) == h4.(dlh := ier & 0xF0);
    LeaveEffect(f, e5, h4.(dlh := ier & 0xF0), h.lcr, h.efr);
  }

  /**
   * The trigger-level setters: the TLR sub-address inside the window is
   * XOFF2, which is read and rewritten; the FCR byte reaches EFR and is then
   * overwritten by the EFR restore. LCR and EFR end as they were.
   */
  lemma TriggerLevelEffect(f: Regs, log: Log, newTlr: bv8, fcr: bv8)
    ensures var h := Replay(f, log);
      Replay(f, TriggerLevelScript(log, h.lcr, h.efr, h.xoff2, newTlr, fcr)) == h.(xoff2 := newTlr)
  {
    var h := Replay(f, log);
    var e4 := Enter(log, h.lcr, h.efr);
    var h4 := h.(lcr := 0xBF, efr := h.efr | 0x10);
    EnterEffect(f, log, h);
    var e5 := Then(e4, Receive(TLR, h.xoff2, true));
    var e6 := Then(e5, Send(TLR, newTlr, true));
    var e7 := Then(e6, Send(FCR, fcr, true));
    EnhancedStep(f, e4, TLR, newTlr, h.xoff2);
    EnhancedStep(f, e6, FCR, fcr, h.xoff2);
    LeaveEffect(f, e7, h4.(xoff2 := newTlr, efr := fcr), h.lcr, h.efr);
  }

  /**
   * Inside the enhanced bank a read at the TLR sub-address stores nothing,
   * a write there stores XOFF2 and a write at the FCR sub-address stores EFR.
   */
  lemma EnhancedStep(f: Regs, log: Log, addr: nat, v: bv8, x: bv8)
    requires Replay(f, log).lcr == 0xBF && (addr == TLR || addr == FCR)
    ensures Replay(f, Then(log, Receive(addr, x, true))) == Replay(f, log)
    ensures addr == TLR ==> Replay(f, Then(Then(log, Receive(addr, x, true)), Send(addr, v, true))) == Replay(f, log).(xoff2 := v)
    ensures addr == FCR ==> Replay(f, Then(log, Send(addr, v, true))) == Replay(f, log).(efr := v)
  {
  }

  /** Outside the enhanced bank a write at the FCR sub-address stores FCR and nothing else. */
  lemma FcrEffect(f: Regs, log: Log, v: bv8)
    requires Replay(f, log).lcr != 0xBF
    ensures Replay(f, Then(log, Send(FCR, v, true))) == Replay(f, log).(fcr := v)
  {
  }

  /** Outside the enhanced bank enableLoopback sets MCR[4] and changes nothing else. */
  lemma LoopbackEffect(f: Regs, log: Log)
    requires Replay(f, log).lcr != 0xBF
    ensures var h := Replay(f, log);
      Replay(f, LoopbackScript(log, h.mcr)) == h.(mcr := h.mcr | 0x10)
  {
  }
}
