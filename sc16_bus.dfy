// One SC16IS7x0 behind the I2C log: the chip is the register model of
// Sc16Registers replayed over the transactions of the log, its stored
// registers evolving by the writes it acknowledged, together with the
// bookkeeping of what the drivers wrote to THR and the conditions under
// which their busy-waits end.
module Sc16Bus {
  import opened I2c
  import opened Sc16Registers

  /** The register file after the chip stores the bytes of a block write one by one at `addr`. */
  function SendAll(f: Regs, addr: nat, data: seq<bv8>): Regs
    decreases |data|
  {
    if |data| == 0 then f else SendAll(AfterSend(f, addr, data[0]), addr, data[1..])
  }

  /** The effect of one transaction on the stored registers: only acknowledged writes change them. */
  function Step(f: Regs, t: Txn): Regs
  {
    match t
    case Send(addr, v, ok) => if ok then AfterSend(f, addr, v) else f
    case SendBlock(addr, data, ok) => if ok then SendAll(f, addr, data) else f
    case _ => f
  }

  /** The stored registers after a log of transactions, starting from `f`. */
  function Replay(f: Regs, log: Log): Regs
  {
    match log
    case Empty => f
    case Then(earlier, t) => Step(Replay(f, earlier), t)
  }

  /** The bytes the driver handed to sub-address 0x00 (THR) in the log, acknowledged or not. */
  function Written(log: Log): seq<bv8>
  {
    match log
    case Empty => []
    case Then(earlier, t) =>
      Written(earlier) + (
        match t
        case Send(addr, v, _) => if addr == THR then [v] else []
        case SendBlock(addr, data, _) => if addr == THR then data else []
        case _ => [])
  }

  /** The bytes the chip acknowledged at sub-address 0x00 (THR) in the log. */
  function Sent(log: Log): seq<bv8>
  {
    match log
    case Empty => []
    case Then(earlier, t) =>
      Sent(earlier) + (
        match t
        case Send(addr, v, ok) => if addr == THR && ok then [v] else []
        case SendBlock(addr, data, ok) => if addr == THR && ok then data else []
        case _ => [])
  }

  /** A read adds nothing to what was written. */
  lemma ReceiveWritesNothing(log: Log, addr: nat, v: bv8, ok: bool)
    ensures Written(Then(log, Receive(addr, v, ok))) == Written(log)
    ensures Sent(Then(log, Receive(addr, v, ok))) == Sent(log)
  {
  }

  /** A burst to THR adds its bytes to what was written, and to what was sent when it is acknowledged. */
  lemma BurstWritten(log: Log, data: seq<bv8>, ok: bool)
    ensures Written(Then(log, SendBlock(THR, data, ok))) == Written(log) + data
    ensures Sent(Then(log, SendBlock(THR, data, ok))) == Sent(log) + (if ok then data else [])
  {
  }

  /** A busy-wait adds nothing to what was written. */
  lemma {:induction false} PolledWritesNothing(log: Log, base: Log, addr: nat)
    requires Polled(log, base, addr)
    ensures Written(log) == Written(base) && Sent(log) == Sent(base)
    decreases log
  {
    if log != base {
      PolledWritesNothing(log.earlier, base, addr);
    }
  }

  /** A busy-wait changes no stored register. */
  lemma {:induction false} PolledKeepsRegisters(f: Regs, log: Log, base: Log, addr: nat)
    requires Polled(log, base, addr)
    ensures Replay(f, log) == Replay(f, base)
    decreases log
  {
    if log != base {
      PolledKeepsRegisters(f, log.earlier, base, addr);
    }
  }

  /** Transaction `j` reads a non-zero TXLVL: free space in the transmit FIFO. */
  predicate TxReady(o: Oracle, j: nat)
  {
    !o.fails(j) && o.sample(j, 0) != 0
  }

  ghost predicate TxReadyFrom(o: Oracle, k: nat)
  {
    exists j: nat :: k <= j && TxReady(o, j)
  }

  /** However long the driver has been polling, the transmit FIFO eventually reports free space. */
  ghost predicate TxLive(o: Oracle)
  {
    forall k: nat :: TxReadyFrom(o, k)
  }

  /** Transaction `j`, a read of LSR, ends a busy-wait on LSR[5]: it fails, or the byte read has bit 5 set. */
  predicate LsrReady(o: Oracle, j: nat)
  {
    o.fails(j) || o.sample(j, 0) & 0x20 != 0
  }

  ghost predicate LsrReadyFrom(o: Oracle, k: nat)
  {
    exists j: nat :: k <= j && LsrReady(o, j)
  }

  /** However long the driver has been polling, a read of LSR eventually ends the wait. */
  ghost predicate LsrLive(o: Oracle)
  {
    forall k: nat :: LsrReadyFrom(o, k)
  }
}
