/** How a configuration lies in memory: five floats, two short words and its own number, low bytes first. */
module ConfigBytes {
  import opened Crc32
  import opened SharedSlot

  const CONFIG_SIZE := 28

  function Join(a: Byte, b: Byte, c: Byte, d: Byte): Word {
    (a as Word) | ((b as Word) << 8) | ((c as Word) << 16) | ((d as Word) << 24)
  }

  function WordAt(p: Payload, at: nat): Word
    requires at + 4 <= |p|
  {
    Join(p[at], p[at + 1], p[at + 2], p[at + 3])
  }

  /** Floats that are not negative are ordered like their words. A lower limit of zero lets the negative zero
      through as well. */
  predicate Between(w: Word, lo: Word, hi: Word) {
    lo <= w <= hi || (lo == 0 && w == 0x8000_0000)
  }

  /** The limits that every configuration is brought within before it is sent: [0.5, 20], [0.01, 1], [0, 1],
      [0, 0.1] and [0, 0.95] for the floats, and at most 100 us of deadzone. */
  predicate InLimits(p: Payload) {
    && |p| == CONFIG_SIZE
    && Between(WordAt(p, 0), 0x3F00_0000, 0x41A0_0000) && Between(WordAt(p, 4), 0x3C23_D70A, 0x3F80_0000)
    && Between(WordAt(p, 8), 0, 0x3F80_0000) && Between(WordAt(p, 12), 0, 0x3DCC_CCCD)
    && Between(WordAt(p, 16), 0, 0x3F73_3333)
    && p[20] <= 100 && p[21] == p[22] == p[23] == 0
  }

  /** The default configuration: 5, 0.12, 0.02, 0.003, 0.45, 15 us, and its number 1. */
  const DEFAULT_BYTES: Payload := [
    0x00, 0x00, 0xA0, 0x40, 0x8F, 0xC2, 0xF5, 0x3D, 0x0A, 0xD7, 0xA3, 0x3C, 0xA6, 0x9B, 0x44, 0x3B,
    0x66, 0x66, 0xE6, 0x3E, 15, 0, 0, 0, 1, 0, 0, 0]

  /** The same with five bytes changed that its CRC does not notice, and with the number 2: gains of 7.72 and 0.12. */
  const COLLIDING_BYTES: Payload := [
    0xC7, 0x13, 0xF7, 0x40, 0x8A, 0xC2, 0xF5, 0x3D, 0x0A, 0xD7, 0xA3, 0x3C, 0xA6, 0x9B, 0x44, 0x3B,
    0x66, 0x66, 0xE6, 0x3E, 15, 0, 0, 0, 2, 0, 0, 0]

  lemma DefaultInLimits()
    ensures InLimits(DEFAULT_BYTES)
  {
    assert Join(0x00, 0x00, 0xA0, 0x40) == 0x40A0_0000;
    assert Join(0x8F, 0xC2, 0xF5, 0x3D) == 0x3DF5_C28F;
    assert Join(0x0A, 0xD7, 0xA3, 0x3C) == 0x3CA3_D70A;
    assert Join(0xA6, 0x9B, 0x44, 0x3B) == 0x3B44_9BA6;
    assert Join(0x66, 0x66, 0xE6, 0x3E) == 0x3EE6_6666;
    hide Join;
    assert WordAt(DEFAULT_BYTES, 0) == Join(0x00, 0x00, 0xA0, 0x40);
    assert WordAt(DEFAULT_BYTES, 4) == Join(0x8F, 0xC2, 0xF5, 0x3D);
    assert WordAt(DEFAULT_BYTES, 8) == Join(0x0A, 0xD7, 0xA3, 0x3C);
    assert WordAt(DEFAULT_BYTES, 12) == Join(0xA6, 0x9B, 0x44, 0x3B);
    assert WordAt(DEFAULT_BYTES, 16) == Join(0x66, 0x66, 0xE6, 0x3E);
  }

  lemma CollidingInLimits()
    ensures InLimits(COLLIDING_BYTES)
  {
    assert Join(0xC7, 0x13, 0xF7, 0x40) == 0x40F7_13C7;
    assert Join(0x8A, 0xC2, 0xF5, 0x3D) == 0x3DF5_C28A;
    assert Join(0x0A, 0xD7, 0xA3, 0x3C) == 0x3CA3_D70A;
    assert Join(0xA6, 0x9B, 0x44, 0x3B) == 0x3B44_9BA6;
    assert Join(0x66, 0x66, 0xE6, 0x3E) == 0x3EE6_6666;
    hide Join;
    assert WordAt(COLLIDING_BYTES, 0) == Join(0xC7, 0x13, 0xF7, 0x40);
    assert WordAt(COLLIDING_BYTES, 4) == Join(0x8A, 0xC2, 0xF5, 0x3D);
    assert WordAt(COLLIDING_BYTES, 8) == Join(0x0A, 0xD7, 0xA3, 0x3C);
    assert WordAt(COLLIDING_BYTES, 12) == Join(0xA6, 0x9B, 0x44, 0x3B);
    assert WordAt(COLLIDING_BYTES, 16) == Join(0x66, 0x66, 0xE6, 0x3E);
  }

  lemma FirstFive()
    ensures XorByte(0x00, 0xC7) == 0xC7 && XorByte(0x00, 0x13) == 0x13 && XorByte(0xA0, 0x57) == 0xF7
    ensures XorByte(0x40, 0x00) == 0x40 && XorByte(0x8F, 0x05) == 0x8A
  {
  }

  lemma CollidingBytes()
    ensures Colliding(DEFAULT_BYTES) == COLLIDING_BYTES
  {
    hide XorByte;
    FirstFive();
    var five := DEFAULT_BYTES[..5];
    assert five == [0x00, 0x00, 0xA0, 0x40, 0x8F];
    assert Xor(five, BLIND) == [0xC7, 0x13, 0xF7, 0x40, 0x8A];
    hide Xor;
    assert DEFAULT_BYTES[5..][19 := 2] == COLLIDING_BYTES[5..];
    assert COLLIDING_BYTES == [0xC7, 0x13, 0xF7, 0x40, 0x8A] + COLLIDING_BYTES[5..];
  }

  // ---------- What the floats stand for ----------

  /** Two to the power e. */
  function Power(e: int): real
    decreases if e < 0 then -e else e
  {
    if e == 0 then 1.0 else if e > 0 then 2.0 * Power(e - 1) else Power(e + 1) / 2.0
  }

  function Exponent(w: Word): nat { ((w >> 23) & 0xFF) as nat }

  function Fraction(w: Word): real { (w & 0x7F_FFFF) as nat as real / 8388608.0 }

  /** The value of a word as a float, if its exponent is not the one reserved for infinities and NaN. */
  function FloatOf(w: Word): real
    requires Exponent(w) < 255
  {
    var size := if Exponent(w) == 0 then Fraction(w) * Power(-126) else (1.0 + Fraction(w)) * Power(Exponent(w) - 127);
    if w & 0x8000_0000 == 0 then size else -size
  }

  lemma {:induction false} PowerMonotone(d: int, e: int)
    requires d <= e
    ensures 0.0 < Power(d) <= Power(e)
    decreases e - d, if d < 0 then -d else d
  {
    if d == e {
      if d > 0 { PowerMonotone(d - 1, d - 1); } else if d < 0 { PowerMonotone(d + 1, d + 1); }
    } else {
      PowerMonotone(d, e - 1);
    }
  }

  // ---------- Half-copied configurations ----------

  /** This byte of the slot is from some configuration that was sent, or still clear. */
  ghost predicate MixedByte(i: nat, b: Byte) {
    b == 0 || exists q: Payload :: InLimits(q) && i < CONFIG_SIZE && q[i] == b
  }

  /** Every byte is from some configuration, no matter which: that is what a reader finds that does not look at the
      CRC, however often it is overtaken. */
  ghost predicate Mixed(p: Payload) {
    |p| == CONFIG_SIZE && forall i :: 0 <= i < CONFIG_SIZE ==> MixedByte(i, p[i])
  }

  lemma TopByte(a: Byte, b: Byte, c: Byte, d: Byte)
    ensures Join(a, b, c, d) <= 0x3FFF_FFFF <==> d <= 0x3F
    ensures Join(a, b, c, d) <= 0x41FF_FFFF <==> d <= 0x41
  {
  }

  lemma SmallExponent(w: Word)
    ensures w <= 0x3FFF_FFFF ==> Exponent(w) <= 127 && w & 0x8000_0000 == 0
    ensures w <= 0x41FF_FFFF ==> Exponent(w) <= 131 && w & 0x8000_0000 == 0
  {
    assert w <= 0x3FFF_FFFF ==> (w >> 23) & 0xFF <= 127;
    assert w <= 0x41FF_FFFF ==> (w >> 23) & 0xFF <= 131;
  }

  lemma FractionIsSmall(w: Word)
    ensures 0.0 <= Fraction(w) < 1.0
  {
    assert w & 0x7F_FFFF <= 8388607;
    assert (w & 0x7F_FFFF) as nat <= 8388607;
  }

  lemma Grows(f: real, small: real, large: real)
    requires 0.0 <= f < 2.0 && 0.0 < small <= large
    ensures 0.0 <= f * small < 2.0 * large
  {
    assert (2.0 - f) * small > 0.0;
    assert (2.0 - f) * small == 2.0 * small - f * small;
  }

  lemma SmallFloat(w: Word, e: int)
    requires Exponent(w) <= e + 127 < 255 && e >= 0 && w & 0x8000_0000 == 0
    ensures 0.0 <= FloatOf(w) < 2.0 * Power(e)
  {
    hide Exponent, Fraction, Power;
    FractionIsSmall(w);
    PowerMonotone(-126, e);
    PowerMonotone(Exponent(w) - 127, e);
    Grows(Fraction(w), Power(-126), Power(e));
    Grows(1.0 + Fraction(w), Power(Exponent(w) - 127), Power(e));
  }

  lemma PowerFour()
    ensures Power(0) == 1.0 && Power(4) == 16.0
  {
    assert Power(2) == 4.0;
  }

  lemma MixedTops(p: Payload)
    requires Mixed(p)
    ensures WordAt(p, 0) <= 0x41FF_FFFF && WordAt(p, 4) <= 0x3FFF_FFFF
  {
    hide Join;
    assert MixedByte(3, p[3]) && MixedByte(7, p[7]);
    if q: Payload :| InLimits(q) && q[3] == p[3] {
      TopByte(q[0], q[1], q[2], q[3]);
    }
    if q: Payload :| InLimits(q) && q[7] == p[7] {
      TopByte(q[4], q[5], q[6], q[7]);
    }
    TopByte(p[0], p[1], p[2], p[3]);
    TopByte(p[4], p[5], p[6], p[7]);
  }

  /** However configurations are mixed, the rate gain stays below 2 and the angle gain below 32. */
  lemma MixedGainsAreSmall(p: Payload)
    requires Mixed(p)
    ensures Exponent(WordAt(p, 0)) < 255 && Exponent(WordAt(p, 4)) < 255
    ensures 0.0 <= FloatOf(WordAt(p, 4)) < 2.0 && 0.0 <= FloatOf(WordAt(p, 0)) < 32.0
  {
    hide Exponent, FloatOf, WordAt, Power;
    MixedTops(p);
    SmallExponent(WordAt(p, 0));
    SmallExponent(WordAt(p, 4));
    PowerFour();
    SmallFloat(WordAt(p, 4), 0);
    SmallFloat(WordAt(p, 0), 4);
  }
}
