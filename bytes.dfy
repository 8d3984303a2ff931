// Byte-level helpers shared by every driver model: the drivers keep register
// contents in `unsigned char`, test pins with `value & (1 << pin)` and update
// them with `|=` and `&= ~`.
module Bytes {

  /** The value of `1 << i` for a bit position of one register. */
  function Mask(i: nat): (m: bv8)
    requires i < 8
    ensures m != 0
  {
    match i
    case 0 => 0x01
    case 1 => 0x02
    case 2 => 0x04
    case 3 => 0x08
    case 4 => 0x10
    case 5 => 0x20
    case 6 => 0x40
    case 7 => 0x80
  }

  /** The table above is `1 << i`. */
  lemma MaskIsShift(i: nat)
    requires i < 8
    ensures Mask(i) == (1 as bv8) << i
  {
  }

  /** Bit `i` of `b`, as the drivers test it with `b & (1 << i)`. */
  predicate Bit(b: bv8, i: nat)
    requires i < 8
  {
    b & Mask(i) != 0
  }

  /** `b |= 1 << i` */
  function SetBit(b: bv8, i: nat): bv8
    requires i < 8
  {
    b | Mask(i)
  }

  /** `b &= ~(1 << i)` */
  function ClearBit(b: bv8, i: nat): bv8
    requires i < 8
  {
    b & !Mask(i)
  }

  /** Sets bit `i` when `v`, clears it otherwise. */
  function WithBit(b: bv8, i: nat, v: bool): bv8
    requires i < 8
  {
    if v then SetBit(b, i) else ClearBit(b, i)
  }

  /** A byte with exactly one bit set. */
  predicate SingleBit(m: bv8)
  {
    m == 0x01 || m == 0x02 || m == 0x04 || m == 0x08 || m == 0x10 || m == 0x20 || m == 0x40 || m == 0x80
  }

  /** Each mask is a single bit, and different positions have different masks. */
  lemma MaskSingle(i: nat, j: nat)
    requires i < 8 && j < 8
    ensures SingleBit(Mask(i))
    ensures Mask(i) == Mask(j) <==> i == j
  {
  }

  /** Setting or clearing the single bit `mi` leaves every other single bit `mj` as it was. */
  lemma SingleBitUpdate(b: bv8, mi: bv8, mj: bv8)
    requires SingleBit(mi) && SingleBit(mj)
    ensures (b | mi) & mj != 0 <==> mi == mj || b & mj != 0
    ensures (b & !mi) & mj != 0 <==> mi != mj && b & mj != 0
  {
  }

  /** A read-modify-write of one bit changes that bit to `v` and keeps the other seven. */
  lemma WithBitSpec(b: bv8, i: nat, v: bool, j: nat)
    requires i < 8 && j < 8
    ensures Bit(WithBit(b, i, v), j) == if j == i then v else Bit(b, j)
  {
    MaskSingle(i, j);
    MaskSingle(j, i);
    SingleBitUpdate(b, Mask(i), Mask(j));
  }

  /** Bitwise operations on a single bit. */
  lemma SingleBitOps(a: bv8, d: bv8, e: bv8, m: bv8)
    requires SingleBit(m)
    ensures (a ^ d) & m != 0 <==> (a & m != 0) != (d & m != 0)
    ensures (a & !d & e) & m != 0 <==> a & m != 0 && d & m == 0 && e & m != 0
  {
  }

  /** Bit `i` of `a ^ b` is set when the two bits differ. */
  lemma BitXor(a: bv8, b: bv8, i: nat)
    requires i < 8
    ensures Bit(a ^ b, i) <==> Bit(a, i) != Bit(b, i)
  {
    MaskSingle(i, i);
    SingleBitOps(a, b, b, Mask(i));
  }

  /** Bit `i` of `x & ~d & e` is set when it is set in `x` and `e` and clear in `d`. */
  lemma BitMasked(x: bv8, d: bv8, e: bv8, i: nat)
    requires i < 8
    ensures Bit(x & !d & e, i) <==> Bit(x, i) && !Bit(d, i) && Bit(e, i)
  {
    MaskSingle(i, i);
    SingleBitOps(x, d, e, Mask(i));
  }

  /** Number of bits set among bits `0 .. n-1` of `b`. */
  function CountBelow(b: bv8, n: nat): (c: nat)
    requires n <= 8
    ensures c <= n
  {
    if n == 0 then 0 else CountBelow(b, n - 1) + (if Bit(b, n - 1) then 1 else 0)
  }

  /** Number of bits set in `b`. */
  function PopCount(b: bv8): nat
  {
    CountBelow(b, 8)
  }

  /** Every bit of 0xFF is set: CountBelow counts each bit below `n`, and PopCount(0xFF) is 8. */
  lemma {:induction false} CountBelowFull(n: nat)
    requires n <= 8
    ensures CountBelow(0xFF, n) == n
  {
    if n > 0 {
      CountBelowFull(n - 1);
    }
  }

  /** Converting a value of 0 .. 255 to a byte and back keeps it. */
  lemma ByteValue(x: nat)
    requires x < 256
    ensures (x as bv8) as nat == x
  {
    CountedValue(x);
    IntRoundTrip(Counted(x));
  }

  /** The byte reached by counting up `x` times from 0. */
  function Counted(x: nat): bv8
  {
    if x == 0 then 0 else Counted(x - 1) + 1
  }

  /** Counting up to a value below 256 does not wrap: the byte's value is the count. */
  lemma {:induction false} CountedValue(x: nat)
    requires x < 256
    ensures Counted(x) as int == x
  {
    if x > 0 {
      CountedValue(x - 1);
      IncrementValue(Counted(x - 1));
    }
  }

  /** Adding 1 to a byte below 255 adds 1 to its value. */
  lemma IncrementValue(c: bv8)
    requires c as int < 255
    ensures (c + 1) as int == c as int + 1
  {
  }

  /** A byte converted to an integer and back is unchanged. */
  lemma IntRoundTrip(b: bv8)
    ensures (b as int) as bv8 == b
  {
  }

  /** The level of pin `pin` in `b`, as digitalRead and pollInt report it: 1 when the bit is set, 0 when it is clear. */
  function PinLevel(b: bv8, pin: nat): (r: int)
    requires pin < 8
    ensures r == 0 || r == 1
  {
    if Bit(b, pin) then 1 else 0
  }

  /** Shifting pin `pin` to bit 7 and masking leaves 0x80 when the pin is set and 0 when it is clear. */
  lemma PinShift(b: bv8, pin: nat)
    requires pin < 8
    ensures (b << (7 - pin)) & 0x80 == if Bit(b, pin) then 0x80 else 0x00
  {
    if pin == 0 {
    } else if pin == 1 {
    } else if pin == 2 {
    } else if pin == 3 {
    } else if pin == 4 {
    } else if pin == 5 {
    } else if pin == 6 {
    } else {
    }
  }

  /**
   * How digitalRead and pollInt extract a pin: shift it to bit 7, mask with
   * 0x80, and map 0x80 to 1. Any other result would be the "bitshift failed"
   * case of digitalRead, which the mask rules out.
   */
  method ShiftLevel(b: bv8, pin: nat) returns (v: int)
    requires pin < 8
    ensures v == PinLevel(b, pin)
  {
    var shifted := (b << (7 - pin)) & 0x80;
    PinShift(b, pin);
    if shifted == 0x00 {
      v := 0;
    } else {
      v := 1;
    }
  }
}
