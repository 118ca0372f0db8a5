/**
 The bitwise CRC-32 that guards every shared slot (reflected polynomial 0xEDB88320, initial value
 all ones, final complement, as in section 8 of RFC 1952), and what it can and cannot detect.
 */
module Crc32 {
  type Byte = bv8
  type Word = bv32

  const POLY: Word := 0xEDB8_8320
  const ONES: Word := 0xFFFF_FFFF

  // ---------- The register as a function of the bytes fed to it ----------

  /** Addition of polynomials over GF(2). */
  function Plus(a: Word, b: Word): Word { a ^ b }

  function Widen(x: Byte): Word { x as Word }

  predicate Odd(c: Word) { c & 1 == 1 }

  function Half(c: Word): Word { c >> 1 }

  /** One shift of the register. */
  function BitStep(c: Word): Word {
    if Odd(c) then Plus(Half(c), POLY) else Half(c)
  }

  function Steps(k: nat, c: Word): Word {
    if k == 0 then c else Steps(k - 1, BitStep(c))
  }

  /** The register after absorbing `data`, one byte and eight shifts at a time. */
  function Fold(c: Word, data: seq<Byte>): Word
    decreases |data|
  {
    if data == [] then c else Fold(Steps(8, Plus(c, Widen(data[0]))), data[1..])
  }

  function Crc(data: seq<Byte>): Word {
    Plus(ONES, Fold(ONES, data))
  }

  function XorByte(x: Byte, y: Byte): Byte { x ^ y }

  /** Bytewise exclusive or of two strings of one length. */
  function Xor(a: seq<Byte>, b: seq<Byte>): (r: seq<Byte>)
    requires |a| == |b|
    ensures |r| == |a| && forall i :: 0 <= i < |a| ==> r[i] == XorByte(a[i], b[i])
  {
    seq(|a|, i requires 0 <= i < |a| => XorByte(a[i], b[i]))
  }

  // ---------- The two nested loops ----------

  /** The branch-free mask of the loop selects the polynomial exactly when the low bit is set. */
  lemma StepByMask(c: Word, mask: Word)
    requires mask == 0 - (c & 1)
    ensures (c >> 1) ^ (POLY & mask) == BitStep(c)
  {
    assert c & 1 == 0 || c & 1 == 1;
  }

  lemma Complement(c: Word)
    ensures !c == Plus(ONES, c)
  {
  }

  method Compute(data: seq<Byte>) returns (r: Word)
    ensures r == Crc(data)
  {
    var crc := ONES;
    for index := 0 to |data|
      invariant Fold(crc, data[index..]) == Fold(ONES, data)
    {
      ghost var mixed := Plus(crc, Widen(data[index]));
      crc := crc ^ (data[index] as Word);
      for bit := 0 to 8
        invariant Steps(8 - bit, crc) == Steps(8, mixed)
      {
        var mask: Word := 0 - (crc & 1);
        StepByMask(crc, mask);
        crc := (crc >> 1) ^ (POLY & mask);
      }
      assert data[index..][1..] == data[index + 1..];
    }
    assert data[|data|..] == [];
    Complement(crc);
    r := !crc;
  }

  // ---------- One shift is linear and loses nothing ----------

  lemma PlusAssociates(a: Word, b: Word, c: Word)
    ensures Plus(Plus(a, b), c) == Plus(a, Plus(b, c))
  {
  }

  lemma PlusSelf(a: Word)
    ensures Plus(a, a) == 0 && Plus(a, 0) == a && Plus(0, a) == a
  {
  }

  lemma PlusLaws(a: Word, b: Word, c: Word)
    ensures Plus(a, b) == Plus(b, a)
    ensures Plus(Plus(a, b), c) == Plus(a, Plus(b, c))
    ensures Plus(a, a) == 0 && Plus(a, 0) == a && Plus(0, a) == a
  {
    PlusAssociates(a, b, c);
    PlusSelf(a);
  }

  lemma HalfPlus(a: Word, b: Word)
    ensures Half(Plus(a, b)) == Plus(Half(a), Half(b))
    ensures Odd(Plus(a, b)) <==> Odd(a) != Odd(b)
  {
  }

  lemma PlusRearrange(x: Word, y: Word)
    ensures Plus(Plus(x, POLY), y) == Plus(Plus(x, y), POLY) == Plus(x, Plus(y, POLY))
    ensures Plus(Plus(x, POLY), Plus(y, POLY)) == Plus(x, y)
  {
    PlusLaws(x, y, POLY);
    PlusLaws(x, POLY, y);
    PlusLaws(POLY, y, 0);
    PlusLaws(x, POLY, Plus(y, POLY));
    PlusLaws(POLY, POLY, y);
    PlusLaws(y, POLY, POLY);
  }

  lemma BitStepPlus(a: Word, b: Word)
    ensures BitStep(Plus(a, b)) == Plus(BitStep(a), BitStep(b))
  {
    HalfPlus(a, b);
    PlusRearrange(Half(a), Half(b));
  }

  /** The top bit of the polynomial is set, so the bit that is shifted out can be read back. */
  lemma BitStepInjective(a: Word, b: Word)
    requires BitStep(a) == BitStep(b)
    ensures a == b
  {
    assert (BitStep(a) >> 31) == a & 1 && (BitStep(b) >> 31) == b & 1;
  }

  lemma {:induction false} StepsPlus(k: nat, a: Word, b: Word)
    ensures Steps(k, Plus(a, b)) == Plus(Steps(k, a), Steps(k, b))
  {
    if k > 0 {
      BitStepPlus(a, b);
      StepsPlus(k - 1, BitStep(a), BitStep(b));
    }
  }

  lemma {:induction false} StepsInjective(k: nat, a: Word, b: Word)
    requires Steps(k, a) == Steps(k, b)
    ensures a == b
  {
    if k > 0 {
      StepsInjective(k - 1, BitStep(a), BitStep(b));
      BitStepInjective(a, b);
    }
  }

  lemma {:induction false} StepsCompose(j: nat, k: nat, c: Word)
    ensures Steps(j + k, c) == Steps(k, Steps(j, c))
  {
    if j > 0 {
      StepsCompose(j - 1, k, BitStep(c));
    }
  }

  lemma {:induction false} StepsZero(k: nat)
    ensures Steps(k, 0) == 0
  {
    if k > 0 {
      assert BitStep(0) == 0;
      StepsZero(k - 1);
    }
  }

  // ---------- So is absorbing a string ----------

  lemma PlusCancels(a: Word, b: Word, c: Word)
    ensures Plus(a, b) == 0 <==> a == b
    ensures Plus(c, a) == Plus(c, b) <==> a == b
  {
    PlusLaws(c, c, a);
    PlusLaws(c, c, b);
    PlusLaws(a, a, b);
  }

  lemma PlusSwap(c: Word, d: Word, x: Byte, y: Byte)
    ensures Plus(Plus(c, d), Widen(XorByte(x, y))) == Plus(Plus(c, Widen(x)), Plus(d, Widen(y)))
  {
  }

  lemma {:induction false} FoldPlus(c: Word, d: Word, a: seq<Byte>, b: seq<Byte>)
    requires |a| == |b|
    ensures Fold(Plus(c, d), Xor(a, b)) == Plus(Fold(c, a), Fold(d, b))
    decreases |a|
  {
    if a != [] {
      var x, y := Plus(c, Widen(a[0])), Plus(d, Widen(b[0]));
      PlusSwap(c, d, a[0], b[0]);
      StepsPlus(8, x, y);
      assert Xor(a, b)[1..] == Xor(a[1..], b[1..]);
      FoldPlus(Steps(8, x), Steps(8, y), a[1..], b[1..]);
    }
  }

  lemma {:induction false} FoldConcat(c: Word, a: seq<Byte>, b: seq<Byte>)
    ensures Fold(c, a + b) == Fold(Fold(c, a), b)
    decreases |a|
  {
    if a == [] {
      assert a + b == b;
    } else {
      assert (a + b)[1..] == a[1..] + b;
      FoldConcat(Steps(8, Plus(c, Widen(a[0]))), a[1..], b);
    }
  }

  lemma {:induction false} FoldInjective(c: Word, d: Word, data: seq<Byte>)
    requires Fold(c, data) == Fold(d, data)
    ensures c == d
    decreases |data|
  {
    if data != [] {
      var x, y := Plus(c, Widen(data[0])), Plus(d, Widen(data[0]));
      FoldInjective(Steps(8, x), Steps(8, y), data[1..]);
      StepsInjective(8, x, y);
      PlusLaws(c, Widen(data[0]), 0);
      PlusLaws(d, Widen(data[0]), 0);
      PlusCancels(c, d, Widen(data[0]));
    }
  }

  ghost predicate Zero(d: seq<Byte>) {
    forall i :: 0 <= i < |d| ==> d[i] == 0
  }

  lemma {:induction false} FoldZero(d: seq<Byte>)
    requires Zero(d)
    ensures Fold(0, d) == 0
    decreases |d|
  {
    if d != [] {
      assert Widen(d[0]) == 0 && Plus(0, 0) == 0;
      StepsZero(8);
      FoldZero(d[1..]);
    }
  }

  lemma SixTerms(x: Word, y: Word, z: Word)
    ensures Plus(ONES, ONES) == 0 && Plus(0, ONES) == ONES
    ensures Plus(Plus(Plus(ONES, x), Plus(ONES, y)), Plus(ONES, z)) == Plus(ONES, Plus(Plus(x, y), z))
  {
  }

  /** The CRC is affine: three strings of one length cancel into the CRC of their sum. */
  lemma CrcAffine(a: seq<Byte>, b: seq<Byte>, c: seq<Byte>)
    requires |a| == |b| == |c|
    ensures Plus(Plus(Crc(a), Crc(b)), Crc(c)) == Crc(Xor(Xor(a, b), c))
  {
    FoldPlus(ONES, ONES, a, b);
    FoldPlus(0, ONES, Xor(a, b), c);
    SixTerms(Fold(ONES, a), Fold(ONES, b), Fold(ONES, c));
  }

  /** An error pattern goes unnoticed exactly when it folds to zero from a zero register,
      whatever the message it falls on. */
  lemma UndetectedIffZeroSyndrome(a: seq<Byte>, b: seq<Byte>)
    requires |a| == |b|
    ensures Crc(a) == Crc(b) <==> Fold(0, Xor(a, b)) == 0
  {
    FoldPlus(ONES, ONES, a, b);
    PlusLaws(ONES, ONES, ONES);
    PlusCancels(Fold(ONES, a), Fold(ONES, b), ONES);
  }

  // ---------- Bursts ----------

  function Up(rest: Word): Word { rest << 8 }

  function Prepend(x: Byte, rest: Word): Word { (x as Word) | Up(rest) }

  /** Up to four bytes as one little-endian word. */
  function Pack(w: seq<Byte>): Word
    requires |w| <= 4
  {
    if w == [] then 0 else Prepend(w[0], Pack(w[1..]))
  }

  predicate Below(w: Word, bytes: nat) {
    match bytes
    case 0 => w == 0
    case 1 => w < 0x100
    case 2 => w < 0x1_0000
    case 3 => w < 0x100_0000
    case _ => true
  }

  lemma PrependBound(x: Byte, rest: Word, bytes: nat)
    requires Below(rest, bytes)
    ensures Below(Prepend(x, rest), bytes + 1)
  {
  }

  lemma {:induction false} PackBound(w: seq<Byte>)
    requires |w| <= 4
    ensures Below(Pack(w), |w|)
  {
    if w != [] {
      PackBound(w[1..]);
      PrependBound(w[0], Pack(w[1..]), |w| - 1);
    }
  }

  lemma BelowThree(w: Word, bytes: nat)
    requires bytes <= 3 && Below(w, bytes)
    ensures w < 0x100_0000
  {
  }

  lemma PrependIsPlus(x: Byte, rest: Word)
    requires rest < 0x100_0000
    ensures Prepend(x, rest) == Plus(Widen(x), Up(rest))
    ensures Prepend(x, rest) == 0 ==> x == 0 && rest == 0
  {
  }

  lemma PrependSplits(c: Word, x: Byte, rest: Word)
    requires rest < 0x100_0000
    ensures Plus(c, Prepend(x, rest)) == Plus(Plus(c, Widen(x)), Up(rest))
    ensures Prepend(x, rest) == 0 ==> x == 0 && rest == 0
  {
    PrependIsPlus(x, rest);
    PlusLaws(c, Widen(x), Up(rest));
  }

  lemma {:induction false} StepsUnroll(c: Word)
    ensures Steps(8, c) ==
      BitStep(BitStep(BitStep(BitStep(BitStep(BitStep(BitStep(BitStep(c))))))))
  {
    var c1 := BitStep(c);
    var c2 := BitStep(c1);
    var c3 := BitStep(c2);
    var c4 := BitStep(c3);
    var c5 := BitStep(c4);
    var c6 := BitStep(c5);
    var c7 := BitStep(c6);
    var c8 := BitStep(c7);
    hide BitStep;
    assert Steps(8, c) == Steps(7, c1) == Steps(6, c2) == Steps(5, c3);
    assert Steps(5, c3) == Steps(4, c4) == Steps(3, c5) == Steps(2, c6) == Steps(1, c7) == Steps(0, c8);
  }

  predicate Clear(c: Word, mask: Word) { c & mask == 0 }

  lemma UpClears(rest: Word)
    requires rest < 0x100_0000
    ensures Clear(Up(rest), 0xFF)
    ensures Half(Half(Half(Half(Half(Half(Half(Half(Up(rest))))))))) == rest
  {
  }

  lemma ClearStep(c: Word, mask: Word) returns (next: Word)
    requires Clear(c, mask) && Odd(mask)
    ensures next == BitStep(c) == Half(c) && Clear(next, Half(mask))
  {
    next := Half(c);
  }

  /** Eight shifts of a register whose low byte is clear only move it down. */
  lemma StepsOfClearByte(rest: Word)
    requires rest < 0x100_0000
    ensures Steps(8, Up(rest)) == rest
  {
    UpClears(rest);
    var c1 := ClearStep(Up(rest), 0xFF);
    var c2 := ClearStep(c1, 0x7F);
    var c3 := ClearStep(c2, 0x3F);
    var c4 := ClearStep(c3, 0x1F);
    var c5 := ClearStep(c4, 0xF);
    var c6 := ClearStep(c5, 0x7);
    var c7 := ClearStep(c6, 0x3);
    var c8 := ClearStep(c7, 0x1);
    StepsUnroll(Up(rest));
  }

  /** Four bytes enter the register as one 32-bit word. */
  lemma {:induction false} FoldPacked(c: Word, w: seq<Byte>)
    requires |w| <= 4
    ensures Fold(c, w) == Steps(8 * |w|, Plus(c, Pack(w)))
    decreases |w|
  {
    if w == [] {
      PlusLaws(c, 0, 0);
    } else {
      var m, rest := Plus(c, Widen(w[0])), Pack(w[1..]);
      PackBound(w[1..]);
      BelowThree(rest, |w| - 1);
      FoldPacked(Steps(8, m), w[1..]);
      StepsOfClearByte(rest);
      StepsPlus(8, m, Up(rest));
      StepsCompose(8, 8 * |w[1..]|, Plus(m, Up(rest)));
      PrependSplits(c, w[0], rest);
    }
  }

  lemma {:induction false} PackZero(w: seq<Byte>)
    requires |w| <= 4 && Pack(w) == 0
    ensures Zero(w)
  {
    if w != [] {
      PackBound(w[1..]);
      BelowThree(Pack(w[1..]), |w| - 1);
      PrependSplits(0, w[0], Pack(w[1..]));
      PackZero(w[1..]);
      forall i | 0 <= i < |w| ensures w[i] == 0 {
        if i > 0 { assert w[i] == w[1..][i - 1]; }
      }
    }
  }

  /** A non-zero error pattern confined to four consecutive bytes never folds to zero. */
  lemma BurstSyndrome(x: seq<Byte>, w: seq<Byte>, y: seq<Byte>)
    requires |w| <= 4 && Zero(x) && Zero(y)
    requires Fold(0, x + (w + y)) == 0
    ensures Zero(w)
  {
    FoldConcat(0, x, w + y);
    FoldZero(x);
    FoldConcat(0, w, y);
    FoldZero(y);
    FoldInjective(Fold(0, w), 0, y);
    FoldPacked(0, w);
    StepsZero(8 * |w|);
    PlusLaws(Pack(w), 0, 0);
    StepsInjective(8 * |w|, Pack(w), 0);
    PackZero(w);
  }

  lemma XorByteZero(x: Byte, y: Byte)
    ensures XorByte(x, y) == 0 <==> x == y
    ensures XorByte(x, XorByte(x, y)) == y
  {
  }

  /** Two strings of one length that differ only inside a window of four consecutive bytes
      have different CRCs. */
  lemma BurstDetected(a: seq<Byte>, b: seq<Byte>, p: nat)
    requires |a| == |b|
    requires forall i :: 0 <= i < |a| && !(p <= i < p + 4) ==> a[i] == b[i]
    ensures Crc(a) == Crc(b) <==> a == b
  {
    if Crc(a) == Crc(b) {
      var d := Xor(a, b);
      UndetectedIffZeroSyndrome(a, b);
      var lo := if p <= |d| then p else |d|;
      var hi := if p + 4 <= |d| then p + 4 else |d|;
      assert d == d[..lo] + (d[lo..hi] + d[hi..]);
      forall i | 0 <= i < |a| ensures d[i] == 0 <==> a[i] == b[i] { XorByteZero(a[i], b[i]); }
      BurstSyndrome(d[..lo], d[lo..hi], d[hi..]);
      forall i | 0 <= i < |a| ensures a[i] == b[i] {
        if lo <= i < hi { assert d[i] == d[lo..hi][i - lo]; }
      }
    }
  }

  /** On payloads of at most four bytes the CRC is a perfect fingerprint. */
  lemma CrcInjectiveUpTo4(a: seq<Byte>, b: seq<Byte>)
    requires |a| == |b| <= 4
    ensures Crc(a) == Crc(b) <==> a == b
  {
    BurstDetected(a, b, 0);
  }

  // ---------- The bound is sharp ----------

  /** Five bytes, the fourth of them clear, that fold to zero. */
  const BLIND: seq<Byte> := [0xC7, 0x13, 0x57, 0x00, 0x05]

  lemma BlindSyndrome()
    ensures Fold(0, BLIND) == 0
  {
    assert BLIND[1..] == [0x13, 0x57, 0x00, 0x05];
    StepsUnroll(0xC7);
    assert Steps(8, 0xC7) == 0x0500_5713 by {
      assert BitStep(BitStep(BitStep(BitStep(0xC7)))) == 0x5005_7130;
    }
    assert Fold(0x0500_5713, [0x13, 0x57, 0x00, 0x05]) == 0 by {
      StepsOfClearByte(0x5_0057);
      StepsOfClearByte(0x500);
      StepsOfClearByte(0x5);
      StepsZero(8);
    }
  }

  /** Every payload of five bytes or more has a different payload of its length with the same CRC,
      which moreover agrees with it in the fourth byte. */
  lemma CrcCollidesFrom5(a: seq<Byte>) returns (b: seq<Byte>)
    requires |a| >= 5
    ensures b == Xor(a[..5], BLIND) + a[5..] && Crc(a) == Crc(b)
    ensures b[0] != a[0] && b[3] == a[3]
  {
    var tail := seq(|a| - 5, i => 0 as Byte);
    var d := BLIND + tail;
    b := Xor(a, d);
    BlindSyndrome();
    FoldConcat(0, BLIND, tail);
    FoldZero(tail);
    forall i | 0 <= i < |a| ensures XorByte(a[i], b[i]) == d[i] { XorByteZero(a[i], d[i]); }
    assert Xor(a, b) == d;
    UndetectedIffZeroSyndrome(a, b);
    assert forall i :: 5 <= i < |a| ==> d[i] == 0;
    assert b == Xor(a[..5], BLIND) + a[5..] by {
      forall i | 5 <= i < |a| ensures b[i] == a[i] { XorByteZero(a[i], b[i]); }
    }
    forall i | 0 <= i < |a| ensures d[i] == 0 <==> a[i] == b[i] { XorByteZero(a[i], b[i]); }
  }

  lemma Absorb(c: Word, x: Byte, mid: Word, next: Word)
    requires BitStep(BitStep(BitStep(BitStep(Plus(c, Widen(x)))))) == mid
    requires BitStep(BitStep(BitStep(BitStep(mid)))) == next
    ensures Steps(8, Plus(c, Widen(x))) == next
  {
    StepsUnroll(Plus(c, Widen(x)));
  }

  /** The published check value of this CRC: the digits 1 to 9. */
  lemma CheckValue()
    ensures Crc([0x31, 0x32, 0x33, 0x34, 0x35, 0x36, 0x37, 0x38, 0x39]) == 0xCBF4_3926
  {
    Absorb(0xFFFF_FFFF, 0x31, 0xAFF5_1D84, 0x7C23_1048);
    Absorb(0x7C23_1048, 0x32, 0xD114_92EF, 0xB0AC_BB32);
    Absorb(0xB0AC_BB32, 0x33, 0x16BD_DBD4, 0x77B7_9C2D);
    Absorb(0x77B7_9C2D, 0x34, 0xF774_EA85, 0x641C_1F5C);
    Absorb(0x641C_1F5C, 0x35, 0xF64E_52B2, 0x340A_C5E3);
    Absorb(0x340A_C5E3, 0x36, 0x682B_FDA9, 0xF68D_2C9E);
    Absorb(0xF68D_2C9E, 0x37, 0xFF67_418E, 0xAFFC_9660);
    Absorb(0xAFFC_9660, 0x38, 0xE747_4A45, 0x651F_2550);
    Absorb(0x651F_2550, 0x39, 0xF65E_6112, 0x340B_C6D9);
  }
}
