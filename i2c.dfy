// The I2C side of every driver: the drivers only ever call `send` and
// `receive` on a gnublin_i2c object and test the returned status. The model
// keeps the transactions a driver attempted, most recent last, and lets an
// oracle decide which of them fail and what a register that the hardware
// changes by itself (a FIFO level, the line status, the input pins) reads at
// that moment.
module I2c {

  /**
   * One attempted transaction and whether the device acknowledged it:
   * a one-byte write or read at a register sub-address, a multi-byte write or
   * read at one sub-address (`n` is the length the driver asked for, which a
   * driver may compute as a negative number), or a write or read without a
   * sub-address.
   */
  datatype Txn =
    | Send(addr: nat, v: bv8, ok: bool)
    | Receive(addr: nat, v: bv8, ok: bool)
    | SendBlock(addr: nat, data: seq<bv8>, ok: bool)
    | ReceiveBlock(addr: nat, n: int, data: seq<bv8>, ok: bool)
    | RawSend(data: seq<bv8>, ok: bool)
    | RawReceive(data: seq<bv8>, ok: bool)

  /** The transactions performed so far; the most recent one is `last`. */
  datatype Log = Empty | Then(earlier: Log, last: Txn)

  /**
   * Everything outside the driver, indexed by the position of a transaction
   * in the log: whether transaction `k` fails, and byte `j` of what
   * transaction `k` reads from a register the hardware updates on its own.
   */
  datatype Oracle = Oracle(fails: nat -> bool, sample: (nat, nat) -> bv8)

  /** Number of transactions in a log. */
  function Size(log: Log): nat
  {
    match log
    case Empty => 0
    case Then(earlier, _) => Size(earlier) + 1
  }

  /** The `n` bytes transaction `k` reads from a register the hardware updates. */
  function Sampled(o: Oracle, k: nat, n: nat): (s: seq<bv8>)
    ensures |s| == n
    ensures forall j :: 0 <= j < n ==> s[j] == o.sample(k, j)
  {
    seq(n, j requires 0 <= j < n => o.sample(k, j))
  }

  /** The byte read by the transaction `j` places after the end of `log`. */
  function Next(o: Oracle, log: Log, j: nat): bv8
  {
    o.sample(Size(log) + j, 0)
  }

  /** `log` is `base` followed only by single-byte reads of sub-address `addr`: a busy-wait. */
  ghost predicate Polled(log: Log, base: Log, addr: nat)
  {
    log == base || (log.Then? && log.last.Receive? && log.last.addr == addr && Polled(log.earlier, base, addr))
  }

  /** `log` is `base` followed only by single-byte reads: the driver wrote nothing. */
  ghost predicate ReadsOnly(log: Log, base: Log)
  {
    log == base || (log.Then? && log.last.Receive? && ReadsOnly(log.earlier, base))
  }

  /** The log ends with a transaction the device did not acknowledge. */
  predicate FailedLast(log: Log)
  {
    log.Then? && !log.last.ok
  }

  /** The number of bytes a block read of requested length `n` returns; a negative length reads nothing. */
  function Clamp(n: int): nat
  {
    if n < 0 then 0 else n
  }

  /**
   * The I2C connection to one chip: the oracle that answers it and the
   * transactions performed so far. A transaction's position in the log is
   * `Size(log)` at the moment it starts.
   */
  class Bus {
    const oracle: Oracle
    var log: Log

    constructor(oracle: Oracle)
      ensures this.oracle == oracle && log == Empty
    {
      this.oracle := oracle;
      log := Empty;
    }

    /** `send(addr, &v, 1)`: succeeds unless the oracle fails this transaction. */
    method SendByte(addr: nat, v: bv8) returns (ok: bool)
      modifies this
      ensures ok == !oracle.fails(Size(old(log)))
      ensures log == Then(old(log), Send(addr, v, ok))
    {
      ok := !oracle.fails(Size(log));
      log := Then(log, Send(addr, v, ok));
    }

    /** `receive(addr, &v, 1)`: the byte is meaningful only when the read succeeds. */
    method ReceiveByte(addr: nat) returns (ok: bool, v: bv8)
      modifies this
      ensures ok == !oracle.fails(Size(old(log)))
      ensures v == Next(oracle, old(log), 0)
      ensures log == Then(old(log), Receive(addr, v, ok))
    {
      ok := !oracle.fails(Size(log));
      v := oracle.sample(Size(log), 0);
      log := Then(log, Receive(addr, v, ok));
    }

    /** `send(addr, data, |data|)`: a burst to one sub-address. */
    method SendBurst(addr: nat, data: seq<bv8>) returns (ok: bool)
      modifies this
      ensures ok == !oracle.fails(Size(old(log)))
      ensures log == Then(old(log), SendBlock(addr, data, ok))
    {
      ok := !oracle.fails(Size(log));
      log := Then(log, SendBlock(addr, data, ok));
    }

    /** `receive(addr, buffer, n)`: a burst from one sub-address; `n` as the driver computed it. */
    method ReceiveBurst(addr: nat, n: int) returns (ok: bool, data: seq<bv8>)
      modifies this
      ensures ok == !oracle.fails(Size(old(log)))
      ensures data == Sampled(oracle, Size(old(log)), Clamp(n))
      ensures log == Then(old(log), ReceiveBlock(addr, n, data, ok))
    {
      ok := !oracle.fails(Size(log));
      data := Sampled(oracle, Size(log), Clamp(n));
      log := Then(log, ReceiveBlock(addr, n, data, ok));
    }

    /** `send(data, |data|)`: a write without a sub-address. */
    method RawSendBytes(data: seq<bv8>) returns (ok: bool)
      modifies this
      ensures ok == !oracle.fails(Size(old(log)))
      ensures log == Then(old(log), RawSend(data, ok))
    {
      ok := !oracle.fails(Size(log));
      log := Then(log, RawSend(data, ok));
    }

    /** `receive(buffer, n)`: a read of `n` bytes without a sub-address. */
    method RawReceiveBytes(n: nat) returns (ok: bool, data: seq<bv8>)
      modifies this
      ensures ok == !oracle.fails(Size(old(log)))
      ensures data == Sampled(oracle, Size(old(log)), n)
      ensures log == Then(old(log), RawReceive(data, ok))
    {
      ok := !oracle.fails(Size(log));
      data := Sampled(oracle, Size(log), n);
      log := Then(log, RawReceive(data, ok));
    }
  }
}
