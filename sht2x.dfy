// The SHT2x temperature and humidity sensor: a measurement is one command
// byte followed by a three-byte read (two data bytes and their CRC-8); the
// driver checks the CRC, clears the two status bits and converts the raw
// value to degrees Celsius or percent relative humidity.
module Sht2x {
  import opened I2c

  const TEMP_HOLD: bv8 := 0xE3
  const HUM_HOLD: bv8 := 0xE5
  const TEMP_NOHOLD: bv8 := 0xF3
  const HUM_NOHOLD: bv8 := 0xF5
  const WRITE_USER: bv8 := 0xE6
  const READ_USER: bv8 := 0xE7
  const SOFT_RESET: bv8 := 0xFE

  /** P(x) = x^8 + x^5 + x^4 + 1. */
  const CRC_POLYNOMIAL: bv16 := 0x131

  /** What readTemperature and readHumidity return when the read or the CRC check fails. */
  const ERROR_VALUE: real := -99.99

  // ---------------------------------------------------------------------
  // The CRC-8.
  // ---------------------------------------------------------------------

  /**
   * One shift of the CRC register: shift left and, when the top bit falls
   * out, XOR 0x31, the polynomial without its x^8 term.
   */
  function ShiftStep(c: bv8): bv8
  {
    if c & 0x80 != 0 then (c << 1) ^ 0x31 else c << 1
  }

  /**
   * The shift as the driver computes it: the byte is promoted to an int,
   * shifted, XORed with the 9-bit polynomial when bit 7 was set, and
   * stored back into a byte.
   */
  function PromotedShift(c: bv8): bv8
  {
    var w := (c as bv16) << 1;
    ((if c & 0x80 != 0 then w ^ CRC_POLYNOMIAL else w) & 0xFF) as bv8
  }

  /** `k` shifts. */
  function Shifts(c: bv8, k: nat): bv8
    decreases k
  {
    if k == 0 then c else Shifts(ShiftStep(c), k - 1)
  }

  /** The CRC register after the bytes of `data`, starting from `c`: XOR each byte in, then eight shifts. */
  function CrcFrom(c: bv8, data: seq<bv8>): bv8
    decreases |data|
  {
    if |data| == 0 then c else CrcFrom(Shifts(c ^ data[0], 8), data[1..])
  }

  /** The CRC-8 of `data`, starting from 0. */
  function Crc(data: seq<bv8>): bv8
  {
    CrcFrom(0, data)
  }

  /**
   * Storing the promoted result back into a byte drops the x^8 term: the
   * driver's arithmetic with 0x131 is the byte-wide shift with 0x31.
   */
  lemma PromotedShiftIsShiftStep(c: bv8)
    ensures PromotedShift(c) == ShiftStep(c)
  {
  }

  /** A shift loses no information. */
  lemma ShiftStepInjective(x: bv8, y: bv8)
    ensures ShiftStep(x) == ShiftStep(y) ==> x == y
  {
  }

  /** Nor does any number of shifts. */
  lemma {:induction false} ShiftsInjective(x: bv8, y: bv8, k: nat)
    ensures Shifts(x, k) == Shifts(y, k) ==> x == y
    decreases k
  {
    if k > 0 {
      ShiftStepInjective(x, y);
      ShiftsInjective(ShiftStep(x), ShiftStep(y), k - 1);
    }
  }

  /** Any number of shifts maps only 0 to 0. */
  lemma {:induction false} ShiftsZero(x: bv8, k: nat)
    ensures Shifts(x, k) == 0 <==> x == 0
    decreases k
  {
    if k > 0 {
      ShiftStepInjective(x, 0);
      ShiftsZero(ShiftStep(x), k - 1);
    }
  }

  /** Feeding one more byte. */
  lemma {:induction false} CrcAppend(c: bv8, a: seq<bv8>, x: bv8)
    ensures CrcFrom(c, a + [x]) == Shifts(CrcFrom(c, a) ^ x, 8)
    decreases |a|
  {
    if |a| == 0 {
      assert a + [x] == [x];
      assert [x][1..] == [];
    } else {
      assert (a + [x])[0] == a[0];
      assert (a + [x])[1..] == a[1..] + [x];
      CrcAppend(Shifts(c ^ a[0], 8), a[1..], x);
    }
  }

  /** A frame followed by its own CRC checks to zero. */
  lemma CrcResidue(data: seq<bv8>)
    ensures Crc(data + [Crc(data)]) == 0
  {
    CrcAppend(0, data, Crc(data));
    ShiftsZero(0, 8);
  }

  /** Feeding `a + b` is feeding `a`, then `b`. */
  lemma {:induction false} CrcSplit(c: bv8, a: seq<bv8>, b: seq<bv8>)
    ensures CrcFrom(c, a + b) == CrcFrom(CrcFrom(c, a), b)
    decreases |a|
  {
    if |a| == 0 {
      assert a + b == b;
    } else {
      assert (a + b)[0] == a[0];
      assert (a + b)[1..] == a[1..] + b;
      CrcSplit(Shifts(c ^ a[0], 8), a[1..], b);
    }
  }

  /** Registers that differ before a run of bytes still differ after it. */
  lemma {:induction false} CrcFromInjective(c: bv8, d: bv8, data: seq<bv8>)
    ensures CrcFrom(c, data) == CrcFrom(d, data) ==> c == d
    decreases |data|
  {
    if |data| > 0 {
      XorInjective(c, d, data[0]);
      ShiftsInjective(c ^ data[0], d ^ data[0], 8);
      CrcFromInjective(Shifts(c ^ data[0], 8), Shifts(d ^ data[0], 8), data[1..]);
    }
  }

  lemma XorInjective(c: bv8, d: bv8, x: bv8)
    ensures c ^ x == d ^ x ==> c == d
  {
  }

  /** Different bytes fed into one register leave different registers. */
  lemma FeedSeparates(r: bv8, x: bv8, y: bv8)
    requires x != y
    ensures Shifts(r ^ x, 8) != Shifts(r ^ y, 8)
  {
    XorInjective(x, y, r);
    ShiftsInjective(r ^ x, r ^ y, 8);
  }

  /** The CRC of a frame with one more byte. */
  lemma CrcLastByte(front: seq<bv8>, x: bv8)
    ensures Crc(front + [x]) == Shifts(Crc(front) ^ x, 8)
  {
    CrcAppend(0, front, x);
  }

  /** Different last bytes give different CRCs. */
  lemma AppendSeparates(front: seq<bv8>, x: bv8, y: bv8)
    requires x != y
    ensures Crc(front + [x]) != Crc(front + [y])
  {
    CrcLastByte(front, x);
    CrcLastByte(front, y);
    FeedSeparates(Crc(front), x, y);
  }

  /** Frames that differ in one byte only have different CRCs. */
  lemma CrcSeparates(front: seq<bv8>, x: bv8, y: bv8, back: seq<bv8>)
    requires x != y
    ensures Crc(front + [x] + back) != Crc(front + [y] + back)
  {
    var cx, cy := Crc(front + [x]), Crc(front + [y]);
    AppendSeparates(front, x, y);
    assert CrcFrom(cx, back) != CrcFrom(cy, back) by {
      CrcFromInjective(cx, cy, back);
    }
    CrcSplit(0, front + [x], back);
    CrcSplit(0, front + [y], back);
  }

  lemma XorChanges(x: bv8, e: bv8)
    requires e != 0
    ensures x ^ e != x
  {
  }

  /** The CRC detects every error confined to one byte. */
  lemma ByteErrorDetected(data: seq<bv8>, i: nat, e: bv8)
    requires i < |data| && e != 0
    ensures Crc(data[i := data[i] ^ e]) != Crc(data)
  {
    assert data == data[..i] + [data[i]] + data[i + 1..];
    assert data[i := data[i] ^ e] == data[..i] + [data[i] ^ e] + data[i + 1..];
    XorChanges(data[i], e);
    CrcSeparates(data[..i], data[i] ^ e, data[i], data[i + 1..]);
  }

  /** Two sample frames and their checksums. */
  lemma CrcSamples()
    ensures Crc([0x68, 0x3A]) == 0x7C
    ensures Crc([0x4E, 0x85]) == 0x6B
  {
  }

  // ---------------------------------------------------------------------
  // The measurement.
  // ---------------------------------------------------------------------

  /** `(b0 << 8) + b1` with the two status bits cleared. */
  function RawValue(b0: bv8, b1: bv8): bv16
  {
    (((b0 as bv16) << 8) + (b1 as bv16)) & 0xFFFC
  }

  /** The raw value keeps the first byte and the top six bits of the second; it is a multiple of 4 up to 0xFFFC. */
  lemma RawValueSpec(b0: bv8, b1: bv8)
    ensures RawValue(b0, b1) >> 8 == b0 as bv16
    ensures RawValue(b0, b1) & 0xFF == (b1 & 0xFC) as bv16
    ensures RawValue(b0, b1) & 0x03 == 0
    ensures RawValue(b0, b1) as int % 4 == 0 && RawValue(b0, b1) as int <= 0xFFFC
  {
  }

  /** The temperature formula as written: offset -46.65. */
  function TemperatureAsWritten(raw: int): real
  {
    -46.65 + 175.72 / 65536.0 * (raw as real)
  }

  /** The SHT21 temperature formula, T = -46.85 + 175.72 * S / 2^16. */
  function Temperature(raw: int): real
  {
    -46.85 + 175.72 / 65536.0 * (raw as real)
  }

  /** The relative humidity formula, RH = -6 + 125 * S / 2^16. */
  function Humidity(raw: int): real
  {
    -6.0 + 125.0 / 65536.0 * (raw as real)
  }

  /**
   * The as-written offset reads every raw value 0.2 degrees too warm; for
   * the raw value 0 it gives -46.65 instead of -46.85.
   */
  lemma TemperatureOffset(raw: int)
    ensures TemperatureAsWritten(raw) == Temperature(raw) + 0.2
    ensures TemperatureAsWritten(0) == -46.65 && Temperature(0) == -46.85
  {
  }

  /**
   * Both conversions grow with the raw value, stay within the sensor's
   * range, and never produce the error value, so a caller can tell a
   * reading from a failure.
   */
  lemma ConversionRange(raw: int, other: int)
    requires 0 <= raw <= 0xFFFF && 0 <= other <= 0xFFFF
    ensures -46.85 <= Temperature(raw) < 129.0 && Temperature(raw) != ERROR_VALUE
    ensures -6.0 <= Humidity(raw) < 119.0 && Humidity(raw) != ERROR_VALUE
    ensures raw <= other ==> Temperature(raw) <= Temperature(other) && Humidity(raw) <= Humidity(other)
  {
  }

  /** convertC2F. */
  function CelsiusToFahrenheit(c: real): (f: real)
  {
    c * 9.0 / 5.0 + 32.0
  }

  /** The conversion is undone by the Fahrenheit-to-Celsius formula, and fixes -40. */
  lemma CelsiusToFahrenheitInverse(c: real)
    ensures (CelsiusToFahrenheit(c) - 32.0) * 5.0 / 9.0 == c
    ensures CelsiusToFahrenheit(-40.0) == -40.0
  {
  }

  /** The result of one measurement: whether it succeeded, the raw value, and the transactions made. */
  datatype Measure = Measure(ok: bool, raw: bv16, log: Log)

  /**
   * _readSensor followed by the CRC check: the command byte, then (if it
   * was acknowledged) a three-byte read; success needs both acknowledged
   * and the CRC of the two data bytes to equal the third.
   */
  function MeasureF(o: Oracle, log: Log, command: bv8): Measure
  {
    var k := Size(log);
    if o.fails(k) then Measure(false, 0, Then(log, RawSend([command], false)))
    else
      var data := Sampled(o, k + 1, 3);
      var log' := Then(Then(log, RawSend([command], true)), RawReceive(data, !o.fails(k + 1)));
      if o.fails(k + 1) || Crc(data[..2]) != data[2] then Measure(false, 0, log')
      else Measure(true, RawValue(data[0], data[1]), log')
  }

  /**
   * A measurement succeeds exactly when both transactions are acknowledged
   * and the two data bytes read carry their own CRC as the third byte; it
   * then yields their raw value.
   */
  lemma MeasureSpec(o: Oracle, log: Log, command: bv8)
    ensures var m := MeasureF(o, log, command);
      var k := Size(log);
      (m.ok <==> !o.fails(k) && !o.fails(k + 1) && Crc([o.sample(k + 1, 0), o.sample(k + 1, 1)]) == o.sample(k + 1, 2))
      && (m.ok ==> m.raw == RawValue(o.sample(k + 1, 0), o.sample(k + 1, 1)))
      && Size(m.log) == Size(log) + (if o.fails(k) then 1 else 2)
  {
    var k := Size(log);
    if !o.fails(k) {
      var data := Sampled(o, k + 1, 3);
      assert data[..2] == [o.sample(k + 1, 0), o.sample(k + 1, 1)];
    }
  }

  /** A sensor connection. */
  class Sensor {
    const bus: Bus
    var errorFlag: bool

    constructor(oracle: Oracle)
      ensures fresh(bus) && bus.oracle == oracle && bus.log == Empty && !errorFlag
    {
      bus := new Bus(oracle);
      errorFlag := false;
    }

    /** softReset: the single byte 0xFE; 1 when acknowledged. */
    method SoftReset() returns (r: int)
      modifies this, bus
      ensures bus.log == Then(old(bus.log), RawSend([SOFT_RESET], r == 1))
      ensures r == (if bus.oracle.fails(Size(old(bus.log))) then -1 else 1)
      ensures errorFlag == (r == -1)
    {
      errorFlag := false;
      var ok := bus.RawSendBytes([SOFT_RESET]);
      if ok {
        return 1;
      }
      errorFlag := true;
      return -1;
    }

    /** _readSensor: the command byte, then a three-byte read. */
    method ReadSensor(command: bv8) returns (r: int, data: seq<bv8>)
      modifies this, bus
      ensures var k := Size(old(bus.log));
        if bus.oracle.fails(k) then bus.log == Then(old(bus.log), RawSend([command], false)) && r == -1
        else
          data == Sampled(bus.oracle, k + 1, 3)
          && bus.log == Then(Then(old(bus.log), RawSend([command], true)), RawReceive(data, r == 1))
          && r == (if bus.oracle.fails(k + 1) then -1 else 1)
      ensures errorFlag == (r == -1)
    {
      errorFlag := false;
      var ok := bus.RawSendBytes([command]);
      if !ok {
        errorFlag := true;
        return -1, [];
      }
      ok, data := bus.RawReceiveBytes(3);
      if !ok {
        errorFlag := true;
        return -1, data;
      }
      return 1, data;
    }

    /**
     * _checkCrc: the CRC of the first `bytes` bytes of `data`, bit by bit;
     * 0 when it equals `checksum`, -1 (and the error flag) otherwise. A
     * count of 0 or less checks nothing, so only checksum 0 passes.
     */
    method CheckCrc(data: seq<bv8>, bytes: int, checksum: bv8) returns (r: int)
      requires bytes <= |data|
      modifies this
      ensures r == (if Crc(data[..if bytes < 0 then 0 else bytes]) == checksum then 0 else -1)
      ensures errorFlag == (r == -1)
    {
      errorFlag := false;
      var crc: bv8 := 0;
      var i := 0;
      while i < bytes
        invariant 0 <= i <= (if bytes < 0 then 0 else bytes)
        invariant crc == Crc(data[..i]) && !errorFlag
      {
        ghost var x := crc ^ data[i];
        crc := crc ^ data[i];
        var bit := 8;
        while bit > 0
          invariant 0 <= bit <= 8
          invariant Shifts(crc, bit) == Shifts(x, 8) && !errorFlag
        {
          PromotedShiftIsShiftStep(crc);
          if crc & 0x80 != 0 {
            crc := ((((crc as bv16) << 1) ^ CRC_POLYNOMIAL) & 0xFF) as bv8;
          } else {
            crc := (((crc as bv16) << 1) & 0xFF) as bv8;
          }
          bit := bit - 1;
        }
        CrcAppend(0, data[..i], data[i]);
        assert data[..i + 1] == data[..i] + [data[i]];
        i := i + 1;
      }
      if crc != checksum {
        errorFlag := true;
        return -1;
      }
      return 0;
    }

    /**
     * The part readTemperature and readHumidity share: measure and check
     * the CRC of the two data bytes against the third; on success the raw
     * value with the status bits cleared.
     */
    method Measure(command: bv8) returns (ok: bool, raw: bv16)
      modifies this, bus
      ensures var m := MeasureF(bus.oracle, old(bus.log), command);
        bus.log == m.log && errorFlag == !m.ok && ok == m.ok && (ok ==> raw == m.raw)
    {
      errorFlag := false;
      var r, rxBuffer := ReadSensor(command);
      if r < 0 {
        return false, 0;
      }
      r := CheckCrc(rxBuffer, 2, rxBuffer[2]);
      if r < 0 {
        return false, 0;
      }
      var result := RawValue(rxBuffer[0], rxBuffer[1]);
      return true, result;
    }

    /** readTemperature: the no-hold temperature command, converted with the SHT21 formula. */
    method ReadTemperature() returns (t: real)
      modifies this, bus
      ensures var m := MeasureF(bus.oracle, old(bus.log), TEMP_NOHOLD);
        bus.log == m.log && errorFlag == !m.ok && t == (if m.ok then Temperature(m.raw as int) else ERROR_VALUE)
    {
      var ok, raw := Measure(TEMP_NOHOLD);
      if !ok {
        return ERROR_VALUE;
      }
      return Temperature(raw as int);
    }

    /** readHumidity: the no-hold humidity command. */
    method ReadHumidity() returns (h: real)
      modifies this, bus
      ensures var m := MeasureF(bus.oracle, old(bus.log), HUM_NOHOLD);
        bus.log == m.log && errorFlag == !m.ok && h == (if m.ok then Humidity(m.raw as int) else ERROR_VALUE)
    {
      var ok, raw := Measure(HUM_NOHOLD);
      if !ok {
        return ERROR_VALUE;
      }
      return Humidity(raw as int);
    }
  }
}
