// The MCP230xx port-expander driver shared by the MCP23017 (two 8-bit ports,
// 16 pins) and the MCP23009 (one port, 8 pins). Register addresses are those
// of the MCP23017 in its IOCON.BANK = 0 layout, where port A and port B
// registers alternate; the driver divides port-A addresses by two (shifts
// them right by `registerShift`) for a single-port chip, whose registers are
// the port-A ones packed together. Every operation resets the error flag,
// checks its pin or port number against the device's capabilities before any
// bus traffic, and then performs single-byte reads and writes, giving up at
// the first transaction the device does not acknowledge.
module Mcp230xx {
  import opened Bytes
  import opened Gnublin
  import opened I2c
  import opened Seqs

  datatype Option<T> = None | Some(value: T)

  const GPA: nat := 0
  const GPB: nat := 1

  // MCP23017 register addresses (IOCON.BANK = 0).
  const IODIRA: nat := 0x00
  const IODIRB: nat := 0x01
  const IPOLA: nat := 0x02
  const IPOLB: nat := 0x03
  const GPINTENA: nat := 0x04
  const GPINTENB: nat := 0x05
  const DEFVALA: nat := 0x06
  const DEFVALB: nat := 0x07
  const INTCONA: nat := 0x08
  const INTCONB: nat := 0x09
  const IOCON: nat := 0x0A
  const GPPUA: nat := 0x0C
  const GPPUB: nat := 0x0D
  const INTFA: nat := 0x0E
  const INTFB: nat := 0x0F
  const INTCAPA: nat := 0x10
  const INTCAPB: nat := 0x11
  const GPIOA: nat := 0x12
  const GPIOB: nat := 0x13
  const OLATA: nat := 0x14
  const OLATB: nat := 0x15

  /** IOCON.SEQOP, which init always sets. */
  const CONF_SEQOP: bv8 := 0x20
  const CONF_INTLOW: bv8 := 0x00
  const CONF_INTHIGH: bv8 := 0x02
  const CONF_INTMIRROR: bv8 := 0x40

  // The interrupt modes of pinIntMode and portIntMode.
  const INT_CHANGE: string := "change"
  const INT_HIGH: string := "high"
  const INT_LOW: string := "low"
  const INT_NONE: string := "none"

  /** Sizes of the callback tables, and the ports pollInt visits. */
  const MAX_PINS: nat := 16
  const MAX_PORTS: nat := 2

  type PortCount = n: int | 0 <= n <= 2
  type PinCount = n: int | 0 <= n <= 16
  type Shift = s: nat | s <= 1

  /** The registers that exist once per port. */
  datatype Bank = IoDir | IPol | GpIntEn | DefVal | IntCon | GpPu | IntF | IntCap | Gpio | OLat

  /** The port-A address of a bank on the MCP23017. */
  function BaseA(b: Bank): nat
  {
    match b
    case IoDir => IODIRA
    case IPol => IPOLA
    case GpIntEn => GPINTENA
    case DefVal => DEFVALA
    case IntCon => INTCONA
    case GpPu => GPPUA
    case IntF => INTFA
    case IntCap => INTCAPA
    case Gpio => GPIOA
    case OLat => OLATA
  }

  /** The port-B address of a bank on the MCP23017. */
  function BaseB(b: Bank): nat
  {
    match b
    case IoDir => IODIRB
    case IPol => IPOLB
    case GpIntEn => GPINTENB
    case DefVal => DEFVALB
    case IntCon => INTCONB
    case GpPu => GPPUB
    case IntF => INTFB
    case IntCap => INTCAPB
    case Gpio => GPIOB
    case OLat => OLATB
  }

  /** The constructor's choice of shift: 1 exactly for a single-port device. */
  function RegisterShift(ports: int): Shift
  {
    if ports == 1 then 1 else 0
  }

  /** `addr >> shift`. */
  function Shifted(addr: nat, shift: Shift): nat
  {
    if shift == 1 then addr / 2 else addr
  }

  /** The address the driver uses for a bank of a port: port A shifted, port B as is. */
  function Address(b: Bank, port: nat, shift: Shift): nat
    requires port < 2
  {
    if port == GPA then Shifted(BaseA(b), shift) else BaseB(b)
  }

  /**
   * With the shift the constructor chooses, the registers a device with
   * `ports` ports can reach have pairwise different addresses, none of them
   * IOCON's: a read-modify-write of one register never lands on another.
   */
  lemma AddressesDistinct(ports: PortCount, b1: Bank, p1: nat, b2: Bank, p2: nat)
    requires p1 < ports && p2 < ports
    ensures Address(b1, p1, RegisterShift(ports)) == Address(b2, p2, RegisterShift(ports)) ==> b1 == b2 && p1 == p2
    ensures Address(b1, p1, RegisterShift(ports)) != Shifted(IOCON, RegisterShift(ports))
  {
    BankLayout(b1);
    BankLayout(b2);
    BankIndexInjective(b1, b2);
    var shift, i1, i2 := RegisterShift(ports), BankIndex(b1), BankIndex(b2);
    if ports == 1 {
      assert Address(b1, p1, shift) == i1 && Address(b2, p2, shift) == i2;
      assert Shifted(IOCON, shift) == 5;
    } else {
      assert Address(b1, p1, shift) == 2 * i1 + p1 && Address(b2, p2, shift) == 2 * i2 + p2;
      assert Shifted(IOCON, shift) == 10;
    }
  }

  /** The position of a bank in the register map, counted in port pairs; IOCON holds position 5. */
  function BankIndex(b: Bank): nat
  {
    match b
    case IoDir => 0
    case IPol => 1
    case GpIntEn => 2
    case DefVal => 3
    case IntCon => 4
    case GpPu => 6
    case IntF => 7
    case IntCap => 8
    case Gpio => 9
    case OLat => 10
  }

  /** Port A of a bank sits at twice its position, port B right after it. */
  lemma BankLayout(b: Bank)
    ensures BaseA(b) == 2 * BankIndex(b) && BaseB(b) == BaseA(b) + 1
    ensures BankIndex(b) != 5 && BankIndex(b) <= 10 && IOCON == 2 * 5
  {
  }

  lemma BankIndexInjective(b1: Bank, b2: Bank)
    ensures BankIndex(b1) == BankIndex(b2) ==> b1 == b2
  {
  }

  /**
   * A single-port device (shift 1) finds its registers at the halved
   * MCP23017 port-A addresses, 0x00 .. 0x0A with IOCON at 0x05: the
   * register map of the MCP23009.
   */
  lemma SinglePortMap(b: Bank)
    ensures RegisterShift(1) == 1 && Shifted(IOCON, 1) == 0x05
    ensures Address(b, GPA, 1) == BaseA(b) / 2 <= 0x0A
    ensures Address(IoDir, GPA, 1) == 0x00 && Address(IPol, GPA, 1) == 0x01
    ensures Address(GpIntEn, GPA, 1) == 0x02 && Address(DefVal, GPA, 1) == 0x03
    ensures Address(IntCon, GPA, 1) == 0x04 && Address(GpPu, GPA, 1) == 0x06
    ensures Address(IntF, GPA, 1) == 0x07 && Address(IntCap, GPA, 1) == 0x08
    ensures Address(Gpio, GPA, 1) == 0x09 && Address(OLat, GPA, 1) == 0x0A
  {
  }

  /** The port of a pin: 0 .. 7 are on port A, 8 .. 15 on port B. */
  function PinPort(pin: nat): (p: nat)
    requires pin < 16
    ensures p < 2
  {
    if pin <= 7 then GPA else GPB
  }

  /** The bit of a pin within its port's registers. */
  function PinBit(pin: nat): (b: nat)
    requires pin < 16
    ensures b < 8
  {
    if pin <= 7 then pin else pin - 8
  }

  /**
   * The pin numbering pollInt uses, `pin + port * 8`, and the mapping of
   * the pin methods are inverse to each other.
   */
  lemma PinNumbering(port: nat, bit: nat, pin: nat)
    requires port < 2 && bit < 8 && pin < 16
    ensures PinPort(bit + port * 8) == port && PinBit(bit + port * 8) == bit
    ensures PinBit(pin) + PinPort(pin) * 8 == pin && PinBit(pin) == pin % 8
  {
  }

  /** The bit level pinMode writes for a direction: OUTPUT clears the IODIR bit, INPUT sets it; -1 rejects. */
  function DirectionLevel(direction: string): int
  {
    if direction == OUTPUT then 0 else if direction == INPUT then 1 else -1
  }

  /** The byte portMode writes for a direction. */
  function DirectionByte(direction: string): Option<bv8>
  {
    if direction == OUTPUT then Some(0x00) else if direction == INPUT then Some(0xFF) else None
  }

  /** The byte portPullUpMode and portPolarityMode write for a value. */
  function ValueByte(value: int): Option<bv8>
  {
    if value == 0 then Some(0x00) else if value == 1 then Some(0xFF) else None
  }

  /** A byte with every bit equal to `b`. */
  function Fill(b: bool): bv8
  {
    if b then 0xFF else 0x00
  }

  /** Each port-level byte sets every pin to the level the pin-level methods give one pin. */
  lemma PortBytes(direction: string, value: int, b: bool, j: nat)
    requires j < 8
    ensures Bit(Fill(b), j) == b
    ensures DirectionByte(direction).Some? <==> DirectionLevel(direction) != -1
    ensures DirectionByte(direction).Some? ==> DirectionByte(direction).value == Fill(DirectionLevel(direction) == 1)
    ensures ValueByte(value).Some? <==> value == 0 || value == 1
    ensures ValueByte(value).Some? ==> ValueByte(value).value == Fill(value == 1)
  {
    MaskSingle(j, j);
  }

  /** The bits one interrupt mode puts in DEFVAL, INTCON and GPINTEN for a pin. */
  datatype IntMode = IntMode(defVal: bool, intCon: bool, intEn: bool)

  /** The interrupt-mode table; an unknown mode string has no entry. */
  function IntModeOf(mode: string): Option<IntMode>
  {
    if mode == INT_CHANGE then Some(IntMode(false, false, true))
    else if mode == INT_HIGH then Some(IntMode(false, true, true))
    else if mode == INT_LOW then Some(IntMode(true, true, true))
    else if mode == INT_NONE then Some(IntMode(false, false, false))
    else None
  }

  /**
   * The chip's interrupt-on-change rule for one pin (section 1.6.5 of the
   * MCP23017 datasheet): with GPINTEN set, a pin interrupts when its level
   * differs from DEFVAL if INTCON is set, and from its previous level if
   * INTCON is clear.
   */
  predicate Fires(m: IntMode, previous: bool, level: bool)
  {
    m.intEn && (if m.intCon then level != m.defVal else level != previous)
  }

  /**
   * Each named mode makes the chip interrupt exactly as its name says: on
   * any change, on a high level, on a low level, or never; no other string
   * is a mode.
   */
  lemma IntModeMeaning(mode: string, previous: bool, level: bool)
    ensures IntModeOf(mode).Some? <==> mode == INT_CHANGE || mode == INT_HIGH || mode == INT_LOW || mode == INT_NONE
    ensures mode == INT_CHANGE ==> (Fires(IntModeOf(mode).value, previous, level) <==> level != previous)
    ensures mode == INT_HIGH ==> (Fires(IntModeOf(mode).value, previous, level) <==> level)
    ensures mode == INT_LOW ==> (Fires(IntModeOf(mode).value, previous, level) <==> !level)
    ensures mode == INT_NONE ==> !Fires(IntModeOf(mode).value, previous, level)
  {
  }

  /** What an operation leaves behind: its return code, the transactions so far, and the error flag. */
  datatype Outcome = Outcome(r: int, log: Log, errorFlag: bool)

  /** The same for an operation returning `unsigned char`, where -1 reads as 0xFF. */
  datatype ByteOutcome = ByteOutcome(v: bv8, log: Log, errorFlag: bool)

  /** An operation that gives up with -1 and the error flag set. */
  function Fail(log: Log): Outcome
  {
    Outcome(-1, log, true)
  }

  /** `send(addr, &v, 1)`: 1 when acknowledged, -1 and the error flag otherwise. */
  function WriteF(o: Oracle, log: Log, addr: nat, v: bv8): Outcome
  {
    var ok := !o.fails(Size(log));
    Outcome(if ok then 1 else -1, Then(log, Send(addr, v, ok)), !ok)
  }

  /** `receive(addr, &v, 1)`: the byte, or 0xFF and the error flag when it fails. */
  function ReadF(o: Oracle, log: Log, addr: nat): ByteOutcome
  {
    var ok := !o.fails(Size(log));
    var v := Next(o, log, 0);
    ByteOutcome(if ok then v else 0xFF, Then(log, Receive(addr, v, ok)), !ok)
  }

  /** Three writes in order, stopping at the first one that fails. */
  function WriteThreeF(o: Oracle, log: Log, a1: nat, v1: bv8, a2: nat, v2: bv8, a3: nat, v3: bv8): Outcome
  {
    var w1 := WriteF(o, log, a1, v1);
    if w1.r != 1 then w1
    else
      var w2 := WriteF(o, w1.log, a2, v2);
      if w2.r != 1 then w2 else WriteF(o, w2.log, a3, v3)
  }

  /**
   * A single-bit read-modify-write (pinMode, digitalWrite, pinPullUpMode,
   * pinPolarityMode): read the register, reject a level other than 0 or 1,
   * and write the byte read with bit `bit` changed to the level.
   */
  function UpdateF(o: Oracle, log: Log, addr: nat, bit: nat, level: int): Outcome
    requires bit < 8
  {
    var cur := ReadF(o, log, addr);
    if cur.errorFlag || (level != 0 && level != 1) then Fail(cur.log)
    else WriteF(o, cur.log, addr, WithBit(cur.v, bit, level == 1))
  }

  /**
   * A read-modify-write succeeds exactly when both transactions are
   * acknowledged and the level is 0 or 1. It then writes back the byte read
   * with bit `bit` equal to the level and the seven other bits as read; when
   * it fails it writes nothing but the attempted write.
   */
  lemma UpdateSpec(o: Oracle, log: Log, addr: nat, bit: nat, level: int)
    requires bit < 8
    ensures var u := UpdateF(o, log, addr, bit, level);
      var k := Size(log);
      var cur := Next(o, log, 0);
      (u.r == 1 || u.r == -1) && (u.errorFlag <==> u.r == -1)
      && (u.r == 1 <==> !o.fails(k) && (level == 0 || level == 1) && !o.fails(k + 1))
      && (o.fails(k) || (level != 0 && level != 1) ==> u.log == Then(log, Receive(addr, cur, !o.fails(k))))
      && (u.r == 1 ==>
        exists w: bv8 ::
          u.log == Then(Then(log, Receive(addr, cur, true)), Send(addr, w, true))
          && forall j :: 0 <= j < 8 ==> Bit(w, j) == if j == bit then level == 1 else Bit(cur, j))
  {
    var u := UpdateF(o, log, addr, bit, level);
    if u.r == 1 {
      var w := WithBit(Next(o, log, 0), bit, level == 1);
      forall j | 0 <= j < 8
        ensures Bit(w, j) == if j == bit then level == 1 else Bit(Next(o, log, 0), j)
      {
        WithBitSpec(Next(o, log, 0), bit, level == 1, j);
      }
    }
  }

  /** A pin number the device has. */
  predicate PinInRange(pin: int, pins: PinCount)
  {
    0 <= pin <= pins - 1
  }

  /** A port number the device has. */
  predicate PortInRange(port: int, ports: PortCount)
  {
    0 <= port <= ports - 1
  }

  /** A pin-level read-modify-write of `bank`, after the range check. */
  function PinUpdateF(o: Oracle, log: Log, pin: int, pins: PinCount, shift: Shift, bank: Bank, level: int): Outcome
  {
    if !PinInRange(pin, pins) then Fail(log)
    else UpdateF(o, log, Address(bank, PinPort(pin), shift), PinBit(pin), level)
  }

  /** A port-level write of `bank`, after the range check; `None` is a rejected argument. */
  function PortWriteF(o: Oracle, log: Log, port: int, ports: PortCount, shift: Shift, bank: Bank, v: Option<bv8>): Outcome
  {
    if !PortInRange(port, ports) then Fail(log)
    else if v.None? then Fail(log)
    else WriteF(o, log, Address(bank, port, shift), v.value)
  }

  /** digitalRead: the level of the pin in GPIOA or GPIOB, or -1. */
  function DigitalReadF(o: Oracle, log: Log, pin: int, pins: PinCount, shift: Shift): Outcome
  {
    if !PinInRange(pin, pins) then Fail(log)
    else
      var cur := ReadF(o, log, Address(Gpio, PinPort(pin), shift));
      if cur.errorFlag then Fail(cur.log) else Outcome(PinLevel(cur.v, PinBit(pin)), cur.log, false)
  }

  /** readPort: the byte of GPIOA or GPIOB, or 0xFF. */
  function ReadPortF(o: Oracle, log: Log, port: int, ports: PortCount, shift: Shift): ByteOutcome
  {
    if !PortInRange(port, ports) then ByteOutcome(0xFF, log, true)
    else ReadF(o, log, Address(Gpio, port, shift))
  }

  /**
   * The write phase of pinIntMode, after DEFVAL, INTCON and GPINTEN were
   * read as `d`, `c` and `e`: an unknown mode writes nothing; a known one
   * writes the three bytes back with bit `bit` set to its entry in the table.
   */
  function ModeWriteF(o: Oracle, log: Log, port: nat, bit: nat, mode: Option<IntMode>, d: bv8, c: bv8, e: bv8, shift: Shift): Outcome
    requires port < 2 && bit < 8
  {
    match mode
    case None => Fail(log)
    case Some(m) =>
      WriteThreeF(o, log,
        Address(DefVal, port, shift), WithBit(d, bit, m.defVal),
        Address(IntCon, port, shift), WithBit(c, bit, m.intCon),
        Address(GpIntEn, port, shift), WithBit(e, bit, m.intEn))
  }

  /**
   * pinIntMode on bit `bit` of port `port`: read DEFVAL, INTCON and GPINTEN,
   * giving up at the first failed read, then the write phase.
   */
  function PinIntModeF(o: Oracle, log: Log, port: nat, bit: nat, mode: Option<IntMode>, shift: Shift): Outcome
    requires port < 2 && bit < 8
  {
    var d := ReadF(o, log, Address(DefVal, port, shift));
    if d.errorFlag then Fail(d.log)
    else
      var c := ReadF(o, d.log, Address(IntCon, port, shift));
      if c.errorFlag then Fail(c.log)
      else
        var e := ReadF(o, c.log, Address(GpIntEn, port, shift));
        if e.errorFlag then Fail(e.log)
        else ModeWriteF(o, e.log, port, bit, mode, d.v, c.v, e.v, shift)
  }

  /** pinIntMode with its range check. */
  function PinIntModeRangeF(o: Oracle, log: Log, pin: int, mode: string, pins: PinCount, shift: Shift): Outcome
  {
    if !PinInRange(pin, pins) then Fail(log) else PinIntModeF(o, log, PinPort(pin), PinBit(pin), IntModeOf(mode), shift)
  }

  /**
   * The write phase succeeds exactly when the mode is known and its three
   * writes are acknowledged, and writes nothing for an unknown mode.
   */
  lemma ModeWriteOutcome(o: Oracle, log: Log, port: nat, bit: nat, mode: Option<IntMode>, d: bv8, c: bv8, e: bv8, shift: Shift)
    requires port < 2 && bit < 8
    ensures var u := ModeWriteF(o, log, port, bit, mode, d, c, e, shift);
      var k := Size(log);
      (u.r == 1 || u.r == -1) && (u.errorFlag <==> u.r == -1)
      && (mode.None? ==> u == Fail(log))
      && (u.r == 1 <==> mode.Some? && !o.fails(k) && !o.fails(k + 1) && !o.fails(k + 2))
  {
    if mode.Some? {
      var m := mode.value;
      WriteThreeResult(o, log,
        Address(DefVal, port, shift), WithBit(d, bit, m.defVal),
        Address(IntCon, port, shift), WithBit(c, bit, m.intCon),
        Address(GpIntEn, port, shift), WithBit(e, bit, m.intEn));
    }
  }

  /** Three writes return 1 or -1, set the error flag exactly on -1, and succeed exactly when all three are acknowledged. */
  lemma WriteThreeResult(o: Oracle, log: Log, a1: nat, v1: bv8, a2: nat, v2: bv8, a3: nat, v3: bv8)
    ensures var u := WriteThreeF(o, log, a1, v1, a2, v2, a3, v3);
      var k := Size(log);
      (u.r == 1 || u.r == -1) && (u.errorFlag <==> u.r == -1)
      && (u.r == 1 <==> !o.fails(k) && !o.fails(k + 1) && !o.fails(k + 2))
  {
  }

  /**
   * The read phase of pinIntMode: a failed read ends the operation with -1
   * after reads only; three acknowledged reads hand the bytes read to the
   * write phase.
   */
  lemma PinIntModeReads(o: Oracle, log: Log, port: nat, bit: nat, mode: Option<IntMode>, shift: Shift)
    requires port < 2 && bit < 8
    ensures var u := PinIntModeF(o, log, port, bit, mode, shift);
      var k := Size(log);
      var rd := Then(Then(Then(log,
        Receive(Address(DefVal, port, shift), o.sample(k, 0), true)),
        Receive(Address(IntCon, port, shift), o.sample(k + 1, 0), true)),
        Receive(Address(GpIntEn, port, shift), o.sample(k + 2, 0), true));
      (o.fails(k) || o.fails(k + 1) || o.fails(k + 2) ==> u == Fail(u.log) && ReadsOnly(u.log, log))
      && (!o.fails(k) && !o.fails(k + 1) && !o.fails(k + 2) ==>
        Size(rd) == k + 3 && ReadsOnly(rd, log)
        && u == ModeWriteF(o, rd, port, bit, mode, o.sample(k, 0), o.sample(k + 1, 0), o.sample(k + 2, 0), shift))
  {
    var k := Size(log);
    var d := ReadF(o, log, Address(DefVal, port, shift));
    var c := ReadF(o, d.log, Address(IntCon, port, shift));
    var e := ReadF(o, c.log, Address(GpIntEn, port, shift));
    assert Size(c.log) == k + 2;
    assert ReadsOnly(d.log, log);
    assert ReadsOnly(c.log, log);
    assert ReadsOnly(e.log, log);
  }

  /** pinIntMode returns 1 or -1, sets the error flag exactly on -1, and with an unknown mode only reads. */
  lemma PinIntModeResult(o: Oracle, log: Log, port: nat, bit: nat, mode: Option<IntMode>, shift: Shift)
    requires port < 2 && bit < 8
    ensures var u := PinIntModeF(o, log, port, bit, mode, shift);
      (u.r == 1 || u.r == -1) && (u.errorFlag <==> u.r == -1)
      && (mode.None? ==> u.r == -1 && ReadsOnly(u.log, log))
  {
    var d := ReadF(o, log, Address(DefVal, port, shift));
    var c := ReadF(o, d.log, Address(IntCon, port, shift));
    var e := ReadF(o, c.log, Address(GpIntEn, port, shift));
    ReadFSize(o, log, Address(DefVal, port, shift));
    ReadFSize(o, d.log, Address(IntCon, port, shift));
    ReadFSize(o, c.log, Address(GpIntEn, port, shift));
    ReadsOnlyStep(o, log, Address(DefVal, port, shift), log);
    ReadsOnlyStep(o, d.log, Address(IntCon, port, shift), log);
    ReadsOnlyStep(o, c.log, Address(GpIntEn, port, shift), log);
    if !d.errorFlag && !c.errorFlag && !e.errorFlag {
      ModeWriteOutcome(o, e.log, port, bit, mode, d.v, c.v, e.v, shift);
    }
  }

  /** pinIntMode succeeds exactly when its mode is known and its six transactions are acknowledged. */
  lemma PinIntModeSucceeds(o: Oracle, log: Log, port: nat, bit: nat, mode: Option<IntMode>, shift: Shift)
    requires port < 2 && bit < 8
    ensures var k := Size(log);
      PinIntModeF(o, log, port, bit, mode, shift).r == 1 <==>
        (mode.Some? && !o.fails(k) && !o.fails(k + 1) && !o.fails(k + 2)
         && !o.fails(k + 3) && !o.fails(k + 4) && !o.fails(k + 5))
  {
    var d := ReadF(o, log, Address(DefVal, port, shift));
    var c := ReadF(o, d.log, Address(IntCon, port, shift));
    var e := ReadF(o, c.log, Address(GpIntEn, port, shift));
    ReadFSize(o, log, Address(DefVal, port, shift));
    ReadFSize(o, d.log, Address(IntCon, port, shift));
    ReadFSize(o, c.log, Address(GpIntEn, port, shift));
    if !d.errorFlag && !c.errorFlag && !e.errorFlag {
      ModeWriteSucceeds(o, e.log, port, bit, mode, d.v, c.v, e.v, shift, Size(e.log));
    }
  }

  lemma ReadsOnlyStep(o: Oracle, log: Log, addr: nat, base: Log)
    requires ReadsOnly(log, base)
    ensures ReadsOnly(ReadF(o, log, addr).log, base)
  {
  }

  lemma ReadFSize(o: Oracle, log: Log, addr: nat)
    ensures ReadF(o, log, addr).errorFlag == o.fails(Size(log))
    ensures Size(ReadF(o, log, addr).log) == Size(log) + 1
    ensures !o.fails(Size(log)) ==>
      ReadF(o, log, addr).v == o.sample(Size(log), 0)
      && ReadF(o, log, addr).log == Then(log, Receive(addr, o.sample(Size(log), 0), true))
  {
  }

  lemma ModeWriteSucceeds(o: Oracle, log: Log, port: nat, bit: nat, mode: Option<IntMode>, d: bv8, c: bv8, e: bv8, shift: Shift, k: nat)
    requires port < 2 && bit < 8 && k == Size(log)
    ensures ModeWriteF(o, log, port, bit, mode, d, c, e, shift).r == 1
      <==> mode.Some? && !o.fails(k) && !o.fails(k + 1) && !o.fails(k + 2)
  {
    ModeWriteOutcome(o, log, port, bit, mode, d, c, e, shift);
  }

  /** A successful write phase writes the three bytes back with the table's bits. */
  lemma ModeWriteSends(o: Oracle, log: Log, port: nat, bit: nat, m: IntMode, d: bv8, c: bv8, e: bv8, shift: Shift)
    requires port < 2 && bit < 8
    requires !o.fails(Size(log)) && !o.fails(Size(log) + 1) && !o.fails(Size(log) + 2)
    ensures ModeWriteF(o, log, port, bit, Some(m), d, c, e, shift).log
      == Then(Then(Then(log,
        Send(Address(DefVal, port, shift), WithBit(d, bit, m.defVal), true)),
        Send(Address(IntCon, port, shift), WithBit(c, bit, m.intCon), true)),
        Send(Address(GpIntEn, port, shift), WithBit(e, bit, m.intEn), true))
  {
    WriteThreeOk(o, log,
      Address(DefVal, port, shift), WithBit(d, bit, m.defVal),
      Address(IntCon, port, shift), WithBit(c, bit, m.intCon),
      Address(GpIntEn, port, shift), WithBit(e, bit, m.intEn));
  }

  /** The read phase of pinIntMode when its three reads are acknowledged. */
  lemma ReadPhaseOk(o: Oracle, log: Log, port: nat, shift: Shift)
    requires port < 2
    requires !o.fails(Size(log)) && !o.fails(Size(log) + 1) && !o.fails(Size(log) + 2)
    ensures var k := Size(log);
      var dr := ReadF(o, log, Address(DefVal, port, shift));
      var cr := ReadF(o, dr.log, Address(IntCon, port, shift));
      var er := ReadF(o, cr.log, Address(GpIntEn, port, shift));
      !dr.errorFlag && !cr.errorFlag && !er.errorFlag
      && dr.v == o.sample(k, 0) && cr.v == o.sample(k + 1, 0) && er.v == o.sample(k + 2, 0)
      && Size(er.log) == k + 3
      && er.log == Then(Then(Then(log,
        Receive(Address(DefVal, port, shift), o.sample(k, 0), true)),
        Receive(Address(IntCon, port, shift), o.sample(k + 1, 0), true)),
        Receive(Address(GpIntEn, port, shift), o.sample(k + 2, 0), true))
  {
    var dr := ReadF(o, log, Address(DefVal, port, shift));
    var cr := ReadF(o, dr.log, Address(IntCon, port, shift));
    ReadFSize(o, log, Address(DefVal, port, shift));
    ReadFSize(o, dr.log, Address(IntCon, port, shift));
    ReadFSize(o, cr.log, Address(GpIntEn, port, shift));
  }

  /**
   * A pinIntMode with a known mode whose six transactions are acknowledged
   * (exactly the successful ones) reads DEFVAL, INTCON and GPINTEN and then
   * writes them back in that order, each as read except that bit `bit`
   * holds the mode's entry in the table (WithBitSpec: only that bit changes).
   */
  lemma PinIntModeLog(o: Oracle, log: Log, port: nat, bit: nat, m: IntMode, shift: Shift)
    requires port < 2 && bit < 8
    requires var k := Size(log);
      !o.fails(k) && !o.fails(k + 1) && !o.fails(k + 2)
      && !o.fails(k + 3) && !o.fails(k + 4) && !o.fails(k + 5)
    ensures var k := Size(log);
      var d, c, e := o.sample(k, 0), o.sample(k + 1, 0), o.sample(k + 2, 0);
      PinIntModeF(o, log, port, bit, Some(m), shift).log
        == Then(Then(Then(Then(Then(Then(log,
          Receive(Address(DefVal, port, shift), d, true)),
          Receive(Address(IntCon, port, shift), c, true)),
          Receive(Address(GpIntEn, port, shift), e, true)),
          Send(Address(DefVal, port, shift), WithBit(d, bit, m.defVal), true)),
          Send(Address(IntCon, port, shift), WithBit(c, bit, m.intCon), true)),
          Send(Address(GpIntEn, port, shift), WithBit(e, bit, m.intEn), true))
  {
    var dr := ReadF(o, log, Address(DefVal, port, shift));
    var cr := ReadF(o, dr.log, Address(IntCon, port, shift));
    var er := ReadF(o, cr.log, Address(GpIntEn, port, shift));
    ReadPhaseOk(o, log, port, shift);
    ModeWriteSends(o, er.log, port, bit, m, dr.v, cr.v, er.v, shift);
  }

  /** portIntMode after its range check: reject an unknown mode, then write the table's bytes. */
  function PortIntModeF(o: Oracle, log: Log, port: int, mode: string, ports: PortCount, shift: Shift): Outcome
  {
    if !PortInRange(port, ports) then Fail(log)
    else
      match IntModeOf(mode)
      case None => Fail(log)
      case Some(m) =>
        WriteThreeF(o, log,
          Address(DefVal, port, shift), Fill(m.defVal),
          Address(IntCon, port, shift), Fill(m.intCon),
          Address(GpIntEn, port, shift), Fill(m.intEn))
  }

  /**
   * init: write `value | SEQOP` to IOCON, then disable interrupts on ports 0
   * and 1 with portIntMode(port, "none"), whatever the number of ports.
   */
  function InitF(o: Oracle, log: Log, value: bv8, ports: PortCount, shift: Shift): Outcome
  {
    var w := WriteF(o, log, Shifted(IOCON, shift), value | CONF_SEQOP);
    if w.r != 1 then Fail(w.log)
    else
      var p0 := PortIntModeF(o, w.log, 0, INT_NONE, ports, shift);
      if p0.r < 0 then Fail(p0.log)
      else
        var p1 := PortIntModeF(o, p0.log, 1, INT_NONE, ports, shift);
        if p1.r < 0 then Fail(p1.log) else Outcome(1, p1.log, false)
  }

  /**
   * init writes IOCON first, with SEQOP set whatever the caller passed, and
   * stops there when that write fails; on a two-port device whose
   * transactions are all acknowledged it then clears DEFVAL, INTCON and GPINTEN of port A and of port B and
   * returns 1.
   */
  lemma InitSpec(o: Oracle, log: Log, value: bv8, ports: PortCount, shift: Shift)
    ensures var u := InitF(o, log, value, ports, shift);
      (u.r == 1 || u.r == -1) && (u.errorFlag <==> u.r == -1)
    ensures o.fails(Size(log)) ==>
      InitF(o, log, value, ports, shift) == Fail(Then(log, Send(Shifted(IOCON, shift), value | CONF_SEQOP, false)))
    ensures ports == 2 && (forall i :: Size(log) <= i < Size(log) + 7 ==> !o.fails(i)) ==>
      var u := InitF(o, log, value, ports, shift);
      var k := Size(log);
      u.r == 1
      && u.log == Then(Then(Then(Then(Then(Then(Then(log,
        Send(Shifted(IOCON, shift), value | CONF_SEQOP, true)),
        Send(Address(DefVal, 0, shift), 0x00, true)),
        Send(Address(IntCon, 0, shift), 0x00, true)),
        Send(Address(GpIntEn, 0, shift), 0x00, true)),
        Send(Address(DefVal, 1, shift), 0x00, true)),
        Send(Address(IntCon, 1, shift), 0x00, true)),
        Send(Address(GpIntEn, 1, shift), 0x00, true))
  {
    var k := Size(log);
    IntModeOfNone();
    if ports == 2 && (forall i :: k <= i < k + 7 ==> !o.fails(i)) {
      assert !o.fails(k) && !o.fails(k + 1) && !o.fails(k + 2) && !o.fails(k + 3);
      assert !o.fails(k + 4) && !o.fails(k + 5) && !o.fails(k + 6);
      var w := WriteF(o, log, Shifted(IOCON, shift), value | CONF_SEQOP);
      assert w.r == 1 && Size(w.log) == k + 1;
      PortNoneLog(o, w.log, 0, ports, shift);
      var p0 := PortIntModeF(o, w.log, 0, INT_NONE, ports, shift);
      PortNoneLog(o, p0.log, 1, ports, shift);
    }
  }

  /**
   * On a device with fewer than two ports init always reports failure: the
   * port-1 call is out of range (and on a device without ports so is the
   * port-0 one), even after every transaction was acknowledged.
   */
  lemma InitFailsBelowTwoPorts(o: Oracle, log: Log, value: bv8, ports: PortCount, shift: Shift)
    requires ports < 2
    ensures InitF(o, log, value, ports, shift).r == -1
    ensures InitF(o, log, value, ports, shift).errorFlag
  {
  }

  /**
   * init as evidently intended: disable interrupts on the ports the device
   * has, port 0 first.
   */
  function InitExistingF(o: Oracle, log: Log, value: bv8, ports: PortCount, shift: Shift): Outcome
  {
    var w := WriteF(o, log, Shifted(IOCON, shift), value | CONF_SEQOP);
    if w.r != 1 then Fail(w.log)
    else if ports == 0 then Outcome(1, w.log, false)
    else
      var p0 := PortIntModeF(o, w.log, 0, INT_NONE, ports, shift);
      if p0.r < 0 then Fail(p0.log)
      else if ports == 1 then Outcome(1, p0.log, false)
      else
        var p1 := PortIntModeF(o, p0.log, 1, INT_NONE, ports, shift);
        if p1.r < 0 then Fail(p1.log) else Outcome(1, p1.log, false)
  }

  /**
   * The intended init succeeds on every device whose transactions are
   * acknowledged, with one IOCON write and three writes per port, and on a
   * two-port device it is the init the driver performs.
   */
  lemma InitExistingSpec(o: Oracle, log: Log, value: bv8, ports: PortCount, shift: Shift)
    ensures ports == 2 ==> InitExistingF(o, log, value, ports, shift) == InitF(o, log, value, ports, shift)
    ensures (forall i :: Size(log) <= i < Size(log) + 1 + 3 * ports ==> !o.fails(i)) ==>
      var u := InitExistingF(o, log, value, ports, shift);
      u.r == 1 && !u.errorFlag && Size(u.log) == Size(log) + 1 + 3 * ports
  {
    var k := Size(log);
    if forall i :: k <= i < k + 1 + 3 * ports ==> !o.fails(i) {
      var w := WriteF(o, log, Shifted(IOCON, shift), value | CONF_SEQOP);
      assert !o.fails(k);
      assert w.r == 1 && Size(w.log) == k + 1;
      if ports >= 1 {
        assert !o.fails(k + 1) && !o.fails(k + 2) && !o.fails(k + 3);
        PortNoneOk(o, w.log, 0, ports, shift);
        var p0 := PortIntModeF(o, w.log, 0, INT_NONE, ports, shift);
        if ports == 2 {
          assert !o.fails(k + 4) && !o.fails(k + 5) && !o.fails(k + 6);
          PortNoneOk(o, p0.log, 1, ports, shift);
        }
      }
    }
  }

  /** portIntMode(port, "none") on an existing port whose three writes are acknowledged. */
  lemma PortNoneOk(o: Oracle, log: Log, port: int, ports: PortCount, shift: Shift)
    requires PortInRange(port, ports)
    requires !o.fails(Size(log)) && !o.fails(Size(log) + 1) && !o.fails(Size(log) + 2)
    ensures var u := PortIntModeF(o, log, port, INT_NONE, ports, shift);
      u.r == 1 && !u.errorFlag && Size(u.log) == Size(log) + 3
  {
    PortNoneLog(o, log, port, ports, shift);
  }

  /** The three writes of portIntMode(port, "none") when all are acknowledged. */
  lemma PortNoneLog(o: Oracle, log: Log, port: int, ports: PortCount, shift: Shift)
    requires PortInRange(port, ports)
    requires !o.fails(Size(log)) && !o.fails(Size(log) + 1) && !o.fails(Size(log) + 2)
    ensures PortIntModeF(o, log, port, INT_NONE, ports, shift)
      == Outcome(1, Then(Then(Then(log,
        Send(Address(DefVal, port, shift), 0x00, true)),
        Send(Address(IntCon, port, shift), 0x00, true)),
        Send(Address(GpIntEn, port, shift), 0x00, true)), false)
  {
    IntModeOfNone();
    WriteThreeOk(o, log, Address(DefVal, port, shift), 0x00, Address(IntCon, port, shift), 0x00, Address(GpIntEn, port, shift), 0x00);
  }

  lemma WriteThreeOk(o: Oracle, log: Log, a1: nat, v1: bv8, a2: nat, v2: bv8, a3: nat, v3: bv8)
    requires !o.fails(Size(log)) && !o.fails(Size(log) + 1) && !o.fails(Size(log) + 2)
    ensures WriteThreeF(o, log, a1, v1, a2, v2, a3, v3)
      == Outcome(1, Then(Then(Then(log, Send(a1, v1, true)), Send(a2, v2, true)), Send(a3, v3, true)), false)
  {
  }

  lemma IntModeOfNone()
    ensures IntModeOf(INT_NONE) == Some(IntMode(false, false, false))
  {
    assert INT_NONE[0] != INT_CHANGE[0] && INT_NONE[0] != INT_HIGH[0] && INT_NONE[0] != INT_LOW[0];
  }

  /** readIntFlagPort: the INTF byte of a port, or 0xFF with the error flag. */
  function FlagReadF(o: Oracle, log: Log, port: int, ports: PortCount, shift: Shift): ByteOutcome
  {
    if !PortInRange(port, ports) then ByteOutcome(0xFF, log, true)
    else ReadF(o, log, Address(IntF, port, shift))
  }

  /**
   * digitalIntRead: after the range check, read the INTF flags of the pin's
   * port; no flag at all gives 0, otherwise the pin's level in INTCAP. A
   * failed flag read yields 0xFF, which the `intFlags < 0` test cannot catch,
   * so INTCAP is read anyway and the error flag stays set.
   */
  function IntReadF(o: Oracle, log: Log, pin: int, pins: PinCount, ports: PortCount, shift: Shift): Outcome
  {
    if !PinInRange(pin, pins) then Fail(log)
    else
      var port := PinPort(pin);
      var f := FlagReadF(o, log, port, ports, shift);
      if f.v == 0 then Outcome(0, f.log, f.errorFlag)
      else
        var cap := ReadF(o, f.log, Address(IntCap, port, shift));
        if cap.errorFlag then Fail(cap.log) else Outcome(PinLevel(cap.v, PinBit(pin)), cap.log, f.errorFlag)
  }

  /**
   * digitalIntRead returns -1, 0 or 1; with flags pending on the pin's port
   * and INTCAP read, it is the pin's bit in INTCAP.
   */
  lemma IntReadSpec(o: Oracle, log: Log, pin: int, pins: PinCount, ports: PortCount, shift: Shift)
    ensures var u := IntReadF(o, log, pin, pins, ports, shift);
      (u.r == -1 || u.r == 0 || u.r == 1)
      && (!PinInRange(pin, pins) ==> u == Fail(log))
      && ((PinInRange(pin, pins) && PortInRange(PinPort(pin), ports)
        && !o.fails(Size(log)) && Next(o, log, 0) != 0 && !o.fails(Size(log) + 1)) ==>
        u == Outcome(PinLevel(o.sample(Size(log) + 1, 0), PinBit(pin)), Then(Then(log,
          Receive(Address(IntF, PinPort(pin), shift), Next(o, log, 0), true)),
          Receive(Address(IntCap, PinPort(pin), shift), o.sample(Size(log) + 1, 0), true)), false))
  {
  }

  /** readIntPort: like digitalIntRead, but the whole INTCAP byte, 0 without flags, 0xFF on error. */
  function IntPortReadF(o: Oracle, log: Log, port: int, ports: PortCount, shift: Shift): ByteOutcome
  {
    if !PortInRange(port, ports) then ByteOutcome(0xFF, log, true)
    else
      var f := FlagReadF(o, log, port, ports, shift);
      if f.v == 0 then ByteOutcome(0x00, f.log, f.errorFlag)
      else
        var cap := ReadF(o, f.log, Address(IntCap, port, shift));
        if cap.errorFlag then cap else ByteOutcome(cap.v, cap.log, f.errorFlag)
  }

  /** A registered callback, or none (a NULL function pointer). */
  datatype Isr = NoIsr | Isr(id: nat)

  /** One callback invocation: the global, a port or a pin callback, with its arguments. */
  datatype Event =
    | GlobalCall(id: nat, port: nat, pin: nat, value: int)
    | PortCall(id: nat, pin: nat, value: int)
    | PinCall(id: nat, value: int)

  /** The callbacks registered: the global one, one per port and one per pin. */
  datatype Handlers = Handlers(isr: Isr, portIsr: seq<Isr>, pinIsr: seq<Isr>)

  predicate HandlersFit(h: Handlers)
  {
    |h.portIsr| == MAX_PORTS && |h.pinIsr| == MAX_PINS
  }

  /** The calls pollInt makes for one interrupt on pin `bit` of port `port`. */
  function Callbacks(h: Handlers, port: nat, bit: nat, value: int): seq<Event>
    requires HandlersFit(h) && port < 2 && bit < 8
  {
    (if h.isr.Isr? then [GlobalCall(h.isr.id, port, bit, value)] else [])
    + (if h.portIsr[port].Isr? then [PortCall(h.portIsr[port].id, bit, value)] else [])
    + (if h.pinIsr[bit + port * 8].Isr? then [PinCall(h.pinIsr[bit + port * 8].id, value)] else [])
  }

  /** The position of a kind of call in pollInt's order. */
  function Rank(e: Event): nat
  {
    match e
    case GlobalCall(_, _, _, _) => 0
    case PortCall(_, _, _) => 1
    case PinCall(_, _) => 2
  }

  /**
   * For one interrupt, pollInt calls the global callback, then the port's,
   * then the pin's, all with the value read.
   */
  lemma CallbackOrder(h: Handlers, port: nat, bit: nat, value: int)
    requires HandlersFit(h) && port < 2 && bit < 8
    ensures var cs := Callbacks(h, port, bit, value);
      (forall i, j :: 0 <= i < j < |cs| ==> Rank(cs[i]) < Rank(cs[j]))
      && (forall e :: e in cs ==> e.value == value)
  {
    var g: seq<Event> := if h.isr.Isr? then [GlobalCall(h.isr.id, port, bit, value)] else [];
    var p: seq<Event> := if h.portIsr[port].Isr? then [PortCall(h.portIsr[port].id, bit, value)] else [];
    var q: seq<Event> := if h.pinIsr[bit + port * 8].Isr? then [PinCall(h.pinIsr[bit + port * 8].id, value)] else [];
    assert Callbacks(h, port, bit, value) == g + p + q;
  }

  /** Each of the three callbacks is called exactly when it is registered. */
  lemma CallbackPresence(h: Handlers, port: nat, bit: nat, value: int)
    requires HandlersFit(h) && port < 2 && bit < 8
    ensures var cs := Callbacks(h, port, bit, value);
      ((exists e :: e in cs && e.GlobalCall?) <==> h.isr.Isr?)
      && ((exists e :: e in cs && e.PortCall?) <==> h.portIsr[port].Isr?)
      && ((exists e :: e in cs && e.PinCall?) <==> h.pinIsr[bit + port * 8].Isr?)
      && (h.isr.Isr? ==> GlobalCall(h.isr.id, port, bit, value) in cs)
      && (h.portIsr[port].Isr? ==> PortCall(h.portIsr[port].id, bit, value) in cs)
      && (h.pinIsr[bit + port * 8].Isr? ==> PinCall(h.pinIsr[bit + port * 8].id, value) in cs)
  {
    var g: seq<Event> := if h.isr.Isr? then [GlobalCall(h.isr.id, port, bit, value)] else [];
    var p: seq<Event> := if h.portIsr[port].Isr? then [PortCall(h.portIsr[port].id, bit, value)] else [];
    var q: seq<Event> := if h.pinIsr[bit + port * 8].Isr? then [PinCall(h.pinIsr[bit + port * 8].id, value)] else [];
    assert Callbacks(h, port, bit, value) == g + p + q;
    forall e | e in g + p + q
      ensures e.GlobalCall? ==> h.isr.Isr?
      ensures e.PortCall? ==> h.portIsr[port].Isr?
      ensures e.PinCall? ==> h.pinIsr[bit + port * 8].Isr?
    {
      assert e in g || e in p || e in q;
    }
    assert h.isr.Isr? ==> g[0] in g + p + q && g[0].GlobalCall?;
    assert h.portIsr[port].Isr? ==> p[0] in g + p + q && p[0].PortCall?;
    assert h.pinIsr[bit + port * 8].Isr? ==> q[0] in g + p + q && q[0].PinCall?;
  }

  /** The state pollInt accumulates: the count, the log, the error flag and the calls made. */
  datatype Poll = Poll(count: int, log: Log, errorFlag: bool, events: seq<Event>)

  /** pollInt's inner loop over pins 0 .. n-1 of port `port` with flags `flags`, from state `s`. */
  function PinsPoll(o: Oracle, h: Handlers, ports: PortCount, pins: PinCount, shift: Shift, port: nat, flags: bv8, n: nat, s: Poll): Poll
    requires HandlersFit(h) && port < 2 && n <= 8
  {
    if n == 0 then s
    else PinStep(o, h, ports, pins, shift, port, flags, n - 1, PinsPoll(o, h, ports, pins, shift, port, flags, n - 1, s))
  }

  /** One pass of the inner loop: a flagged pin is counted, read and reported. */
  function PinStep(o: Oracle, h: Handlers, ports: PortCount, pins: PinCount, shift: Shift, port: nat, flags: bv8, pin: nat, p: Poll): Poll
    requires HandlersFit(h) && port < 2 && pin < 8
  {
    if Bit(flags, pin) then
      var v := IntReadF(o, p.log, pin + port * 8, pins, ports, shift);
      Poll(p.count + 1, v.log, v.errorFlag, p.events + Callbacks(h, port, pin, v.r))
    else p
  }

  function PortsPoll(o: Oracle, h: Handlers, ports: PortCount, pins: PinCount, shift: Shift, m: nat, s: Poll): Poll
    requires HandlersFit(h) && m <= 2
  {
    if m == 0 then s
    else PortStep(o, h, ports, pins, shift, m - 1, PortsPoll(o, h, ports, pins, shift, m - 1, s))
  }

  /** One pass of the outer loop: read the port's INTF and visit its pins when any flag is set. */
  function PortStep(o: Oracle, h: Handlers, ports: PortCount, pins: PinCount, shift: Shift, port: nat, p: Poll): Poll
    requires HandlersFit(h) && port < 2
  {
    var f := FlagReadF(o, p.log, port, ports, shift);
    var q := Poll(p.count, f.log, f.errorFlag, p.events);
    if f.v == 0 then q else PinsPoll(o, h, ports, pins, shift, port, f.v, 8, q)
  }

  function PollF(o: Oracle, h: Handlers, ports: PortCount, pins: PinCount, shift: Shift, log: Log, errorFlag: bool): Poll
    requires HandlersFit(h)
  {
    PortsPoll(o, h, ports, pins, shift, 2, Poll(0, log, errorFlag, []))
  }

  /** The inner loop only appends to the calls made before it. */
  lemma {:induction false} PinsPollEvents(o: Oracle, h: Handlers, ports: PortCount, pins: PinCount, shift: Shift, port: nat, flags: bv8, n: nat, s: Poll)
    requires HandlersFit(h) && port < 2 && n <= 8
    ensures var p := PinsPoll(o, h, ports, pins, shift, port, flags, n, s);
      var p0 := PinsPoll(o, h, ports, pins, shift, port, flags, n, s.(events := []));
      p.count == p0.count && p.log == p0.log && p.errorFlag == p0.errorFlag && p.events == s.events + p0.events
  {
    if n > 0 {
      PinsPollEvents(o, h, ports, pins, shift, port, flags, n - 1, s);
      var p := PinsPoll(o, h, ports, pins, shift, port, flags, n - 1, s);
      var p0 := PinsPoll(o, h, ports, pins, shift, port, flags, n - 1, s.(events := []));
      var v := IntReadF(o, p.log, n - 1 + port * 8, pins, ports, shift);
      assert p.events + Callbacks(h, port, n - 1, v.r) == s.events + (p0.events + Callbacks(h, port, n - 1, v.r));
    }
  }

  /** The inner loop counts one interrupt per flag set among the pins it visits. */
  lemma {:induction false} PinsPollCount(o: Oracle, h: Handlers, ports: PortCount, pins: PinCount, shift: Shift, port: nat, flags: bv8, n: nat, s: Poll)
    requires HandlersFit(h) && port < 2 && n <= 8
    ensures PinsPoll(o, h, ports, pins, shift, port, flags, n, s).count == s.count + CountBelow(flags, n)
    decreases n
  {
    if n > 0 {
      PinsPollCount(o, h, ports, pins, shift, port, flags, n - 1, s);
    }
  }

  /** No bit of 0x00 is set. */
  lemma {:induction false} CountBelowZero(n: nat)
    requires n <= 8
    ensures CountBelow(0x00, n) == 0
  {
    if n > 0 {
      CountBelowZero(n - 1);
    }
  }

  /**
   * pollInt returns the number of flags set in the two INTF bytes it reads,
   * one per port, at most 16.
   */
  lemma PollCount(o: Oracle, h: Handlers, ports: PortCount, pins: PinCount, shift: Shift, log: Log, errorFlag: bool)
    requires HandlersFit(h)
    ensures var start := Poll(0, log, errorFlag, []);
      var f0 := FlagReadF(o, log, 0, ports, shift);
      var f1 := FlagReadF(o, PortsPoll(o, h, ports, pins, shift, 1, start).log, 1, ports, shift);
      var p := PollF(o, h, ports, pins, shift, log, errorFlag);
      p.count == PopCount(f0.v) + PopCount(f1.v) && 0 <= p.count <= 16
  {
    var start := Poll(0, log, errorFlag, []);
    var p1 := PortsPoll(o, h, ports, pins, shift, 1, start);
    var f0 := FlagReadF(o, log, 0, ports, shift);
    var q0 := Poll(0, f0.log, f0.errorFlag, []);
    CountBelowZero(8);
    PinsPollCount(o, h, ports, pins, shift, 0, f0.v, 8, q0);
    assert PortsPoll(o, h, ports, pins, shift, 0, start) == start;
    assert p1 == if f0.v == 0 then q0 else PinsPoll(o, h, ports, pins, shift, 0, f0.v, 8, q0);
    assert p1.count == PopCount(f0.v);
    var f1 := FlagReadF(o, p1.log, 1, ports, shift);
    var q1 := Poll(p1.count, f1.log, f1.errorFlag, p1.events);
    PinsPollCount(o, h, ports, pins, shift, 1, f1.v, 8, q1);
  }

  /**
   * A failed INTF read is taken for eight pending interrupts: the port's
   * eight pins are all counted and their callbacks called.
   */
  lemma PollFailedFlagRead(o: Oracle, h: Handlers, ports: PortCount, pins: PinCount, shift: Shift, log: Log, errorFlag: bool)
    requires HandlersFit(h)
    requires o.fails(Size(log)) || !PortInRange(0, ports)
    ensures PollF(o, h, ports, pins, shift, log, errorFlag).count >= 8
  {
    PollCount(o, h, ports, pins, shift, log, errorFlag);
    assert FlagReadF(o, log, 0, ports, shift).v == 0xFF;
    CountBelowFull(8);
  }

  /** Number of calls to the global callback among `es`. */
  function GlobalCalls(es: seq<Event>): nat
  {
    if |es| == 0 then 0 else GlobalCalls(es[..|es| - 1]) + (if es[|es| - 1].GlobalCall? then 1 else 0)
  }

  lemma {:induction false} GlobalCallsAppend(a: seq<Event>, b: seq<Event>)
    ensures GlobalCalls(a + b) == GlobalCalls(a) + GlobalCalls(b)
    decreases |b|
  {
    if |b| > 0 {
      assert (a + b)[..|a + b| - 1] == a + b[..|b| - 1];
      GlobalCallsAppend(a, b[..|b| - 1]);
    } else {
      assert a + b == a;
    }
  }

  /** One interrupt makes one global call when the global callback is registered and none otherwise. */
  lemma CallbacksGlobal(h: Handlers, port: nat, bit: nat, value: int)
    requires HandlersFit(h) && port < 2 && bit < 8
    ensures GlobalCalls(Callbacks(h, port, bit, value)) == if h.isr.Isr? then 1 else 0
  {
    var g: seq<Event> := if h.isr.Isr? then [GlobalCall(h.isr.id, port, bit, value)] else [];
    var p: seq<Event> := if h.portIsr[port].Isr? then [PortCall(h.portIsr[port].id, bit, value)] else [];
    var q: seq<Event> := if h.pinIsr[bit + port * 8].Isr? then [PinCall(h.pinIsr[bit + port * 8].id, value)] else [];
    GlobalCallsAppend(g, p);
    GlobalCallsAppend(g + p, q);
    assert GlobalCalls(p) == 0;
    assert GlobalCalls(q) == 0;
    assert Callbacks(h, port, bit, value) == g + p + q;
  }

  /** In the inner loop the global callback is called once per interrupt counted. */
  lemma {:induction false} PinsPollGlobal(o: Oracle, h: Handlers, ports: PortCount, pins: PinCount, shift: Shift, port: nat, flags: bv8, n: nat, s: Poll)
    requires HandlersFit(h) && port < 2 && n <= 8 && h.isr.Isr?
    ensures var p := PinsPoll(o, h, ports, pins, shift, port, flags, n, s);
      GlobalCalls(p.events) - GlobalCalls(s.events) == p.count - s.count
    decreases n
  {
    if n > 0 {
      PinsPollGlobal(o, h, ports, pins, shift, port, flags, n - 1, s);
      var p := PinsPoll(o, h, ports, pins, shift, port, flags, n - 1, s);
      assert PinsPoll(o, h, ports, pins, shift, port, flags, n, s) == PinStep(o, h, ports, pins, shift, port, flags, n - 1, p);
      if Bit(flags, n - 1) {
        var v := IntReadF(o, p.log, n - 1 + port * 8, pins, ports, shift);
        GlobalCallsAppend(p.events, Callbacks(h, port, n - 1, v.r));
        CallbacksGlobal(h, port, n - 1, v.r);
      }
    }
  }

  /** With a global callback registered, pollInt calls it once for every interrupt it counts. */
  lemma PollGlobalCalls(o: Oracle, h: Handlers, ports: PortCount, pins: PinCount, shift: Shift, log: Log, errorFlag: bool)
    requires HandlersFit(h) && h.isr.Isr?
    ensures var p := PollF(o, h, ports, pins, shift, log, errorFlag);
      GlobalCalls(p.events) == p.count
  {
    var start := Poll(0, log, errorFlag, []);
    var f0 := FlagReadF(o, log, 0, ports, shift);
    var q0 := Poll(0, f0.log, f0.errorFlag, []);
    PinsPollGlobal(o, h, ports, pins, shift, 0, f0.v, 8, q0);
    var p1 := PortsPoll(o, h, ports, pins, shift, 1, start);
    assert PortsPoll(o, h, ports, pins, shift, 0, start) == start;
    assert p1 == if f0.v == 0 then q0 else PinsPoll(o, h, ports, pins, shift, 0, f0.v, 8, q0);
    assert GlobalCalls(p1.events) == p1.count;
    var f1 := FlagReadF(o, p1.log, 1, ports, shift);
    var q1 := Poll(p1.count, f1.log, f1.errorFlag, p1.events);
    PinsPollGlobal(o, h, ports, pins, shift, 1, f1.v, 8, q1);
  }

  /** A device object: the C++ class gnublin_module_mcp230xx. */
  class PortExpander {
    const i2c: Bus
    const ports: PortCount
    const pins: PinCount
    const registerShift: Shift
    var errorFlag: bool
    var isr: Isr
    const pinIsr: array<Isr>
    const portIsr: array<Isr>
    /** The callbacks made so far, oldest first. */
    var events: seq<Event>

    /** The callback tables have the sizes the header declares, and the shift fits the port count. */
    predicate Valid()
    {
      pinIsr.Length == MAX_PINS && portIsr.Length == MAX_PORTS && registerShift == RegisterShift(ports)
    }

    /** The callbacks in force. */
    function Registered(): (h: Handlers)
      requires Valid()
      reads this, pinIsr, portIsr
      ensures HandlersFit(h)
    {
      Handlers(isr, portIsr[..], pinIsr[..])
    }

    /** What the register methods leave alone: the callbacks and the calls made. */
    twostate predicate Keeps()
      reads this
    {
      isr == old(isr) && events == old(events)
    }

    /**
     * The constructor: chooses the register shift, runs init(SEQOP) (whose
     * result it ignores) and clears every callback.
     */
    constructor(oracle: Oracle, ports: PortCount, pins: PinCount)
      ensures Valid() && fresh(i2c) && fresh(pinIsr) && fresh(portIsr)
      ensures this.ports == ports && this.pins == pins && i2c.oracle == oracle
      ensures registerShift == 1 <==> ports == 1
      ensures var u := InitExistingF(oracle, Empty, CONF_SEQOP, ports, registerShift);
        i2c.log == u.log && errorFlag == u.errorFlag
      ensures isr == NoIsr && events == []
      ensures forall i :: 0 <= i < MAX_PINS ==> pinIsr[i] == NoIsr
      ensures forall i :: 0 <= i < MAX_PORTS ==> portIsr[i] == NoIsr
    {
      i2c := new Bus(oracle);
      this.ports := ports;
      this.pins := pins;
      var shift: Shift := 0;
      if ports == 1 {
        shift := 1;
      }
      registerShift := shift;
      errorFlag := false;
      isr := NoIsr;
      pinIsr := new Isr[MAX_PINS];
      portIsr := new Isr[MAX_PORTS];
      events := [];
      new;
      var r := Init(CONF_SEQOP);
      ClearCallbacks();
    }

    /** The constructor's last step: no callback at all. */
    method ClearCallbacks()
      requires Valid()
      modifies this, pinIsr, portIsr
      ensures Valid() && i2c.log == old(i2c.log) && errorFlag == old(errorFlag) && events == old(events)
      ensures isr == NoIsr
      ensures forall i :: 0 <= i < MAX_PINS ==> pinIsr[i] == NoIsr
      ensures forall i :: 0 <= i < MAX_PORTS ==> portIsr[i] == NoIsr
    {
      isr := NoIsr;
      for i := 0 to MAX_PINS
        invariant isr == NoIsr && errorFlag == old(errorFlag) && events == old(events)
        invariant forall j :: 0 <= j < i ==> pinIsr[j] == NoIsr
      {
        pinIsr[i] := NoIsr;
      }
      for i := 0 to MAX_PORTS
        invariant isr == NoIsr && errorFlag == old(errorFlag) && events == old(events)
        invariant forall j :: 0 <= j < MAX_PINS ==> pinIsr[j] == NoIsr
        invariant forall j :: 0 <= j < i ==> portIsr[j] == NoIsr
      {
        portIsr[i] := NoIsr;
      }
    }

    /** One `send`, setting the error flag when it fails. */
    method Write(addr: nat, v: bv8) returns (r: int)
      requires !errorFlag
      modifies this, i2c
      ensures Keeps()
      ensures Outcome(r, i2c.log, errorFlag) == WriteF(i2c.oracle, old(i2c.log), addr, v)
    {
      var ok := i2c.SendByte(addr, v);
      if !ok {
        errorFlag := true;
        return -1;
      }
      return 1;
    }

    /** One `receive`, giving 0xFF and setting the error flag when it fails; a flag already set stays set. */
    method Read(addr: nat) returns (ok: bool, v: bv8)
      modifies this, i2c
      ensures Keeps()
      ensures var u := ReadF(i2c.oracle, old(i2c.log), addr);
        ok == !u.errorFlag && v == u.v && i2c.log == u.log && errorFlag == (old(errorFlag) || !ok)
    {
      var b;
      ok, b := i2c.ReceiveByte(addr);
      if !ok {
        errorFlag := true;
        return ok, 0xFF;
      }
      return ok, b;
    }

    /** The read-modify-write shared by the pin-level methods. */
    method Update(addr: nat, bit: nat, level: int) returns (r: int)
      requires !errorFlag && bit < 8
      modifies this, i2c
      ensures Keeps()
      ensures Outcome(r, i2c.log, errorFlag) == UpdateF(i2c.oracle, old(i2c.log), addr, bit, level)
    {
      var ok, cur := Read(addr);
      if !ok {
        return -1;
      }
      var v: bv8;
      if level == 0 {
        v := ClearBit(cur, bit);
      } else if level == 1 {
        v := SetBit(cur, bit);
      } else {
        errorFlag := true;
        return -1;
      }
      r := Write(addr, v);
    }

    /**
     * init: IOCON := value | SEQOP, then portIntMode(port, "none") for each
     * port the device has (the driver as written also calls it for the
     * ports a smaller device lacks; see InitF).
     */
    method Init(value: bv8) returns (r: int)
      modifies this, i2c
      ensures Keeps()
      ensures Outcome(r, i2c.log, errorFlag) == InitExistingF(i2c.oracle, old(i2c.log), value, ports, registerShift)
    {
      errorFlag := false;
      var w := Write(Shifted(IOCON, registerShift), value | CONF_SEQOP);
      if w < 0 {
        return -1;
      }
      if ports == 0 {
        return 1;
      }
      var p0 := PortIntMode(0, INT_NONE);
      if p0 < 0 {
        errorFlag := true;
        return -1;
      }
      if ports == 1 {
        return 1;
      }
      var p1 := PortIntMode(1, INT_NONE);
      if p1 < 0 {
        errorFlag := true;
        return -1;
      }
      return 1;
    }

    /** pinMode: OUTPUT clears the pin's IODIR bit, INPUT sets it, after the range check and the read. */
    method PinMode(pin: int, direction: string) returns (r: int)
      modifies this, i2c
      ensures Keeps()
      ensures Outcome(r, i2c.log, errorFlag)
        == PinUpdateF(i2c.oracle, old(i2c.log), pin, pins, registerShift, IoDir, DirectionLevel(direction))
    {
      errorFlag := false;
      if pin < 0 || pin > pins - 1 {
        errorFlag := true;
        return -1;
      }
      r := Update(Address(IoDir, PinPort(pin), registerShift), PinBit(pin), DirectionLevel(direction));
    }

    /** portMode: IODIR := 0x00 for OUTPUT, 0xFF for INPUT; anything else is rejected without traffic. */
    method PortMode(port: int, direction: string) returns (r: int)
      modifies this, i2c
      ensures Keeps()
      ensures Outcome(r, i2c.log, errorFlag)
        == PortWriteF(i2c.oracle, old(i2c.log), port, ports, registerShift, IoDir, DirectionByte(direction))
    {
      errorFlag := false;
      if port < 0 || port > ports - 1 {
        errorFlag := true;
        return -1;
      }
      var v: bv8;
      if direction == OUTPUT {
        v := 0x00;
      } else if direction == INPUT {
        v := 0xFF;
      } else {
        errorFlag := true;
        return -1;
      }
      r := Write(Address(IoDir, port, registerShift), v);
    }

    /** digitalWrite: sets the pin's OLAT bit to `value`, 0 or 1. */
    method DigitalWrite(pin: int, value: int) returns (r: int)
      modifies this, i2c
      ensures Keeps()
      ensures Outcome(r, i2c.log, errorFlag) == PinUpdateF(i2c.oracle, old(i2c.log), pin, pins, registerShift, OLat, value)
    {
      errorFlag := false;
      if pin < 0 || pin > pins - 1 {
        errorFlag := true;
        return -1;
      }
      r := Update(Address(OLat, PinPort(pin), registerShift), PinBit(pin), value);
    }

    /** digitalRead: the pin's bit of GPIOA or GPIOB, shifted to bit 7 and tested. */
    method DigitalRead(pin: int) returns (r: int)
      modifies this, i2c
      ensures Keeps()
      ensures Outcome(r, i2c.log, errorFlag) == DigitalReadF(i2c.oracle, old(i2c.log), pin, pins, registerShift)
    {
      errorFlag := false;
      if pin < 0 || pin > pins - 1 {
        errorFlag := true;
        return -1;
      }
      var ok, b := Read(Address(Gpio, PinPort(pin), registerShift));
      if !ok {
        return -1;
      }
      r := ShiftLevel(b, PinBit(pin));
    }

    /** readState: digitalRead under another name. */
    method ReadState(pin: int) returns (r: int)
      modifies this, i2c
      ensures Keeps()
      ensures Outcome(r, i2c.log, errorFlag) == DigitalReadF(i2c.oracle, old(i2c.log), pin, pins, registerShift)
    {
      r := DigitalRead(pin);
    }

    /** writePort: OLAT := value. */
    method WritePort(port: int, value: bv8) returns (r: int)
      modifies this, i2c
      ensures Keeps()
      ensures Outcome(r, i2c.log, errorFlag) == PortWriteF(i2c.oracle, old(i2c.log), port, ports, registerShift, OLat, Some(value))
    {
      errorFlag := false;
      if port < 0 || port > ports - 1 {
        errorFlag := true;
        return -1;
      }
      r := Write(Address(OLat, port, registerShift), value);
    }

    /** readPort: the GPIO byte of a port, 0xFF on error. */
    method ReadPort(port: int) returns (v: bv8)
      modifies this, i2c
      ensures Keeps()
      ensures ByteOutcome(v, i2c.log, errorFlag) == ReadPortF(i2c.oracle, old(i2c.log), port, ports, registerShift)
    {
      errorFlag := false;
      if port < 0 || port > ports - 1 {
        errorFlag := true;
        return 0xFF;
      }
      var ok;
      ok, v := Read(Address(Gpio, port, registerShift));
    }

    /** pinIntMode: three reads, the mode check, three single-bit writes. */
    method PinIntMode(pin: int, mode: string) returns (r: int)
      modifies this, i2c
      ensures Keeps()
      ensures Outcome(r, i2c.log, errorFlag) == PinIntModeRangeF(i2c.oracle, old(i2c.log), pin, mode, pins, registerShift)
    {
      errorFlag := false;
      if pin < 0 || pin > pins - 1 {
        errorFlag := true;
        return -1;
      }
      var port, bit := PinPort(pin), PinBit(pin);
      var ok, defVal := Read(Address(DefVal, port, registerShift));
      if !ok {
        return -1;
      }
      var intCon, intEn;
      ok, intCon := Read(Address(IntCon, port, registerShift));
      if !ok {
        return -1;
      }
      ok, intEn := Read(Address(GpIntEn, port, registerShift));
      if !ok {
        return -1;
      }
      r := WriteModeBits(port, bit, IntModeOf(mode), defVal, intCon, intEn);
    }

    /** The write phase of pinIntMode. */
    method WriteModeBits(port: nat, bit: nat, mode: Option<IntMode>, d: bv8, c: bv8, e: bv8) returns (r: int)
      requires !errorFlag && port < 2 && bit < 8
      modifies this, i2c
      ensures Keeps()
      ensures Outcome(r, i2c.log, errorFlag) == ModeWriteF(i2c.oracle, old(i2c.log), port, bit, mode, d, c, e, registerShift)
    {
      if mode.None? {
        errorFlag := true;
        return -1;
      }
      var m := mode.value;
      r := Write(Address(DefVal, port, registerShift), WithBit(d, bit, m.defVal));
      if r < 0 {
        return -1;
      }
      r := Write(Address(IntCon, port, registerShift), WithBit(c, bit, m.intCon));
      if r < 0 {
        return -1;
      }
      r := Write(Address(GpIntEn, port, registerShift), WithBit(e, bit, m.intEn));
    }

    /** portIntMode: the mode check, then DEFVAL, INTCON and GPINTEN as whole bytes. */
    method PortIntMode(port: int, mode: string) returns (r: int)
      modifies this, i2c
      ensures Keeps()
      ensures Outcome(r, i2c.log, errorFlag) == PortIntModeF(i2c.oracle, old(i2c.log), port, mode, ports, registerShift)
    {
      errorFlag := false;
      if port < 0 || port > ports - 1 {
        errorFlag := true;
        return -1;
      }
      var mm := IntModeOf(mode);
      if mm.None? {
        errorFlag := true;
        return -1;
      }
      var d, c, e := Fill(mm.value.defVal), Fill(mm.value.intCon), Fill(mm.value.intEn);
      r := Write(Address(DefVal, port, registerShift), d);
      if r < 0 {
        return -1;
      }
      r := Write(Address(IntCon, port, registerShift), c);
      if r < 0 {
        return -1;
      }
      r := Write(Address(GpIntEn, port, registerShift), e);
    }

    /** pinPullUpMode: sets the pin's GPPU bit to `value`, 0 or 1. */
    method PinPullUpMode(pin: int, value: int) returns (r: int)
      modifies this, i2c
      ensures Keeps()
      ensures Outcome(r, i2c.log, errorFlag) == PinUpdateF(i2c.oracle, old(i2c.log), pin, pins, registerShift, GpPu, value)
    {
      errorFlag := false;
      if pin < 0 || pin > pins - 1 {
        errorFlag := true;
        return -1;
      }
      r := Update(Address(GpPu, PinPort(pin), registerShift), PinBit(pin), value);
    }

    /** portPullUpMode: GPPU := 0x00 or 0xFF; another value is rejected without traffic. */
    method PortPullUpMode(port: int, value: int) returns (r: int)
      modifies this, i2c
      ensures Keeps()
      ensures Outcome(r, i2c.log, errorFlag) == PortWriteF(i2c.oracle, old(i2c.log), port, ports, registerShift, GpPu, ValueByte(value))
    {
      r := PortValue(port, GpPu, value);
    }

    /** pinPolarityMode: sets the pin's IPOL bit to `value`, 0 or 1. */
    method PinPolarityMode(pin: int, value: int) returns (r: int)
      modifies this, i2c
      ensures Keeps()
      ensures Outcome(r, i2c.log, errorFlag) == PinUpdateF(i2c.oracle, old(i2c.log), pin, pins, registerShift, IPol, value)
    {
      errorFlag := false;
      if pin < 0 || pin > pins - 1 {
        errorFlag := true;
        return -1;
      }
      r := Update(Address(IPol, PinPort(pin), registerShift), PinBit(pin), value);
    }

    /** portPolarityMode: IPOL := 0x00 or 0xFF; another value is rejected without traffic. */
    method PortPolarityMode(port: int, value: int) returns (r: int)
      modifies this, i2c
      ensures Keeps()
      ensures Outcome(r, i2c.log, errorFlag) == PortWriteF(i2c.oracle, old(i2c.log), port, ports, registerShift, IPol, ValueByte(value))
    {
      r := PortValue(port, IPol, value);
    }

    /** The body portPullUpMode and portPolarityMode share. */
    method PortValue(port: int, bank: Bank, value: int) returns (r: int)
      modifies this, i2c
      ensures Keeps()
      ensures Outcome(r, i2c.log, errorFlag) == PortWriteF(i2c.oracle, old(i2c.log), port, ports, registerShift, bank, ValueByte(value))
    {
      errorFlag := false;
      if port < 0 || port > ports - 1 {
        errorFlag := true;
        return -1;
      }
      var v: bv8;
      if value == 0 {
        v := 0x00;
      } else if value == 1 {
        v := 0xFF;
      } else {
        errorFlag := true;
        return -1;
      }
      r := Write(Address(bank, port, registerShift), v);
    }

    /** digitalIntRead: the pin's level captured at the interrupt. */
    method DigitalIntRead(pin: int) returns (r: int)
      modifies this, i2c
      ensures Keeps()
      ensures Outcome(r, i2c.log, errorFlag) == IntReadF(i2c.oracle, old(i2c.log), pin, pins, ports, registerShift)
    {
      errorFlag := false;
      if pin < 0 || pin > pins - 1 {
        errorFlag := true;
        return -1;
      }
      var port := PinPort(pin);
      var flags := ReadIntFlagPort(port);
      if flags == 0 {
        return 0;
      }
      var ok, b := Read(Address(IntCap, port, registerShift));
      if !ok {
        return -1;
      }
      r := ShiftLevel(b, PinBit(pin));
    }

    /** readIntPort: the INTCAP byte of a port, 0 when no flag is set, 0xFF on error. */
    method ReadIntPort(port: int) returns (v: bv8)
      modifies this, i2c
      ensures Keeps()
      ensures ByteOutcome(v, i2c.log, errorFlag) == IntPortReadF(i2c.oracle, old(i2c.log), port, ports, registerShift)
    {
      errorFlag := false;
      if port < 0 || port > ports - 1 {
        errorFlag := true;
        return 0xFF;
      }
      var flags := ReadIntFlagPort(port);
      if flags == 0 {
        return 0x00;
      }
      var ok;
      ok, v := Read(Address(IntCap, port, registerShift));
    }

    /** readIntFlagPort: the INTF byte of a port, 0xFF on error. */
    method ReadIntFlagPort(port: int) returns (v: bv8)
      modifies this, i2c
      ensures Keeps()
      ensures ByteOutcome(v, i2c.log, errorFlag) == FlagReadF(i2c.oracle, old(i2c.log), port, ports, registerShift)
    {
      errorFlag := false;
      if port < 0 || port > ports - 1 {
        errorFlag := true;
        return 0xFF;
      }
      var ok;
      ok, v := Read(Address(IntF, port, registerShift));
    }

    /** The callbacks for one interrupt, in pollInt's order. */
    method Notify(port: nat, bit: nat, value: int)
      requires Valid() && port < 2 && bit < 8
      modifies this
      ensures errorFlag == old(errorFlag) && isr == old(isr)
      ensures events == old(events) + Callbacks(Registered(), port, bit, value)
    {
      if isr.Isr? {
        events := events + [GlobalCall(isr.id, port, bit, value)];
      }
      if portIsr[port].Isr? {
        events := events + [PortCall(portIsr[port].id, bit, value)];
      }
      if pinIsr[bit + port * 8].Isr? {
        events := events + [PinCall(pinIsr[bit + port * 8].id, value)];
      }
    }

    /**
     * pollInt: for ports 0 and 1, read the flags; for each flagged pin read
     * its captured level and make the callbacks; return the interrupts counted.
     */
    method PollInt() returns (count: int)
      requires Valid()
      modifies this, i2c
      ensures isr == old(isr)
      ensures var p := PollF(i2c.oracle, old(Registered()), ports, pins, registerShift, old(i2c.log), old(errorFlag));
        count == p.count && i2c.log == p.log && errorFlag == p.errorFlag && events == old(events) + p.events
    {
      ghost var h := Registered();
      ghost var start := Poll(0, i2c.log, errorFlag, []);
      ghost var before := events;
      count := 0;
      for port := 0 to MAX_PORTS
        invariant isr == h.isr && Registered() == h
        invariant var p := PortsPoll(i2c.oracle, h, ports, pins, registerShift, port, start);
          count == p.count && i2c.log == p.log && errorFlag == p.errorFlag && events == before + p.events
      {
        ghost var p := PortsPoll(i2c.oracle, h, ports, pins, registerShift, port, start);
        count := PollPort(port, count, before, p);
      }
    }

    /** One pass of pollInt's outer loop. */
    method PollPort(port: nat, count0: int, ghost before: seq<Event>, ghost p: Poll) returns (count: int)
      requires Valid() && port < 2
      requires count0 == p.count && i2c.log == p.log && errorFlag == p.errorFlag && events == before + p.events
      modifies this, i2c
      ensures isr == old(isr)
      ensures var n := PortStep(i2c.oracle, old(Registered()), ports, pins, registerShift, port, p);
        count == n.count && i2c.log == n.log && errorFlag == n.errorFlag && events == before + n.events
    {
      count := count0;
      var flags := ReadIntFlagPort(port);
      ghost var h := Registered();
      ghost var q := Poll(p.count, i2c.log, errorFlag, p.events);
      ghost var n := PortStep(i2c.oracle, h, ports, pins, registerShift, port, p);
      if flags != 0 {
        assert n == PinsPoll(i2c.oracle, h, ports, pins, registerShift, port, flags, 8, q);
        count := PollPins(port, flags, count);
        PinsPollEvents(i2c.oracle, h, ports, pins, registerShift, port, flags, 8, q);
        AppendAssoc(before, p.events, PinsPoll(i2c.oracle, h, ports, pins, registerShift, port, flags, 8, q.(events := [])).events);
      } else {
        assert n == q;
      }
    }

    /** pollInt's loop over the eight pins of one port whose flags are `flags`. */
    method PollPins(port: nat, flags: bv8, count0: int) returns (count: int)
      requires Valid() && port < 2
      modifies this, i2c
      ensures isr == old(isr)
      ensures var p := PinsPoll(i2c.oracle, old(Registered()), ports, pins, registerShift, port, flags, 8,
          Poll(count0, old(i2c.log), old(errorFlag), []));
        count == p.count && i2c.log == p.log && errorFlag == p.errorFlag && events == old(events) + p.events
    {
      ghost var h := Registered();
      ghost var q := Poll(count0, i2c.log, errorFlag, []);
      ghost var before := events;
      count := count0;
      for pin := 0 to 8
        invariant isr == h.isr && Registered() == h
        invariant var p := PinsPoll(i2c.oracle, h, ports, pins, registerShift, port, flags, pin, q);
          count == p.count && i2c.log == p.log && errorFlag == p.errorFlag && events == before + p.events
      {
        ghost var p := PinsPoll(i2c.oracle, h, ports, pins, registerShift, port, flags, pin, q);
        count := PollPin(port, pin, flags, count, before, p);
      }
    }

    /** One pass of pollInt's inner loop. */
    method PollPin(port: nat, pin: nat, flags: bv8, count0: int, ghost before: seq<Event>, ghost p: Poll) returns (count: int)
      requires Valid() && port < 2 && pin < 8
      requires count0 == p.count && i2c.log == p.log && errorFlag == p.errorFlag && events == before + p.events
      modifies this, i2c
      ensures isr == old(isr)
      ensures var n := PinStep(i2c.oracle, old(Registered()), ports, pins, registerShift, port, flags, pin, p);
        count == n.count && i2c.log == n.log && errorFlag == n.errorFlag && events == before + n.events
    {
      count := count0;
      if flags & Mask(pin) != 0 {
        var value := DigitalIntRead(pin + port * 8);
        Notify(port, pin, value);
        count := count + 1;
        AppendAssoc(before, p.events, Callbacks(old(Registered()), port, pin, value));
      }
    }

    /** intIsr: registers the global callback; the error flag is left as it was. */
    method IntIsr(f: Isr) returns (r: int)
      modifies this
      ensures isr == f && r == 1
      ensures errorFlag == old(errorFlag) && events == old(events)
    {
      isr := f;
      return 1;
    }

    /** pinIntIsr: registers the callback of a pin the device has. */
    method PinIntIsr(pin: int, f: Isr) returns (r: int)
      requires Valid()
      modifies this, pinIsr
      ensures Keeps()
      ensures r == 1 || r == -1
      ensures errorFlag <==> r == -1
      ensures r == 1 <==> PinInRange(pin, pins)
      ensures pinIsr[..] == if r == 1 then old(pinIsr[..])[pin := f] else old(pinIsr[..])
    {
      errorFlag := false;
      if pin < 0 || pin > pins - 1 {
        errorFlag := true;
        return -1;
      }
      pinIsr[pin] := f;
      return 1;
    }

    /** portIntIsr: registers the callback of a port the device has. */
    method PortIntIsr(port: int, f: Isr) returns (r: int)
      requires Valid()
      modifies this, portIsr
      ensures Keeps()
      ensures r == 1 || r == -1
      ensures errorFlag <==> r == -1
      ensures r == 1 <==> PortInRange(port, ports)
      ensures portIsr[..] == if r == 1 then old(portIsr[..])[port := f] else old(portIsr[..])
    {
      errorFlag := false;
      if port < 0 || port > ports - 1 {
        errorFlag := true;
        return -1;
      }
      portIsr[port] := f;
      return 1;
    }
  }
}
