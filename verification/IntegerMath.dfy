/**
 The integer attitude arithmetic of the bring-up loop: a digit-by-digit square root of a 64-bit word,
 a piecewise-linear arc tangent in hundredths of a degree, and the attitude computed with them.
 */
module IntegerMath {
  import opened Numbers

  newtype U32 = x: int | 0 <= x < 0x1_0000_0000
  newtype U64 = x: int | 0 <= x < 0x1_0000_0000_0000_0000

  type Sample = x: int | -0x8000 <= x < 0x8000

  // ---------- Square root ----------

  /** The integer square root, by counting up. */
  function Isqrt(v: nat): (r: nat)
    ensures r * r <= v < (r + 1) * (r + 1)
  {
    if v == 0 then 0
    else
      var r := Isqrt(v - 1);
      if (r + 1) * (r + 1) <= v then r + 1 else r
  }

  lemma SquareMonotone(a: nat, b: nat)
    ensures a <= b ==> a * a <= b * b
  {
    if a <= b {
      assert b * b - a * a == (b - a) * (b + a);
    }
  }

  lemma IsqrtUnique(v: nat, r: nat)
    requires r * r <= v < (r + 1) * (r + 1)
    ensures r == Isqrt(v)
  {
    SquareMonotone(Isqrt(v) + 1, r);
    SquareMonotone(r + 1, Isqrt(v));
  }

  function Pow2(k: nat): (p: nat)
    ensures p >= 1
  {
    if k == 0 then 1 else 2 * Pow2(k - 1)
  }

  function Pow4(k: nat): nat { Pow2(k) * Pow2(k) }

  /** The power of four below which the next digit of a root with k digits lies; none for k == 0. */
  function TopBit(k: nat): nat {
    if k == 0 then 0 else Pow4(k - 1)
  }

  lemma TopBitShift(k: nat)
    requires k > 0
    ensures TopBit(k) / 4 == TopBit(k - 1)
    ensures Pow2(k) == 2 * Pow2(k - 1) && TopBit(k) > 0
  {
    if k > 1 {
      assert Pow2(k - 1) == 2 * Pow2(k - 2);
      assert Pow2(k - 1) * Pow2(k - 1) == 4 * (Pow2(k - 2) * Pow2(k - 2));
    }
  }

  /** The loop variables after all but k digits: `root` is the part found so far. */
  ghost predicate Digits(v: int, bit: int, res: int, rest: int, root: nat, k: nat) {
    && root + Pow2(k) <= 0x1_0000_0000
    && bit == TopBit(k)
    && res == root * Pow2(k)
    && rest == v - root * root
    && root * root <= v < (root + Pow2(k)) * (root + Pow2(k))
  }

  lemma Squares(root: nat, h: nat)
    ensures (root + h) * (root + h) == root * root + 2 * (root * h) + h * h
    ensures (root + h + h) * (root + h + h) == root * root + 4 * (root * h) + 4 * (h * h)
    ensures root * (h + h) == 2 * (root * h) && (root + h) * h == root * h + h * h
    ensures root * h >= 0
  {
  }

  /** The sum that a round compares with cannot leave 64 bits. */
  lemma NextDigitFits(v: int, bit: int, res: int, rest: int, root: nat, k: nat)
    requires Digits(v, bit, res, rest, root, k) && k > 0
    ensures 0 < res + bit < 0x1_0000_0000_0000_0000
  {
    var h := Pow2(k - 1);
    TopBitShift(k);
    SquareMonotone(root + h, 0xFFFF_FFFF);
    Squares(root, h);
    assert Pow2(k) == h + h;
  }

  lemma DigitStep(v: int, bit: int, res: int, rest: int, rr: int, rh: int, hh: int, near: int, far: int)
    requires res == 2 * rh && bit == hh && rest == v - rr && rr <= v < far
    requires near == rr + 2 * rh + hh
    ensures rest >= res + bit ==> rest - (res + bit) == v - near && near <= v < far && res / 2 + bit == rh + hh
    ensures rest < res + bit ==> rr <= v < near && res / 2 == rh
  {
  }

  /** One round of the loop finds the next binary digit of the root. */
  lemma NextDigit(v: int, bit: int, res: int, rest: int, root: nat, k: nat)
    requires Digits(v, bit, res, rest, root, k) && k > 0
    ensures rest >= res + bit ==>
      Digits(v, bit / 4, res / 2 + bit, rest - (res + bit), root + Pow2(k - 1), k - 1)
    ensures rest < res + bit ==> Digits(v, bit / 4, res / 2, rest, root, k - 1)
  {
    var h := Pow2(k - 1);
    TopBitShift(k);
    assert Pow2(k) == h + h;
    var rr, rh, hh, near, far := root * root, root * h, h * h, (root + h) * (root + h), (root + h + h) * (root + h + h);
    Squares(root, h);
    assert (root + Pow2(k)) * (root + Pow2(k)) == far;
    DigitStep(v, bit, res, rest, rr, rh, hh, near, far);
  }

  /** No digit is left: the part found so far is the root. */
  lemma LastDigit(v: nat, bit: int, res: int, rest: int, root: nat, k: nat)
    requires Digits(v, bit, res, rest, root, k) && bit == 0
    ensures res == root == Isqrt(v) < 0x1_0000_0000
  {
    if k > 0 {
      TopBitShift(k);
    } else {
      IsqrtUnique(v, root);
    }
  }

  lemma FirstDigit(v: nat, k: nat)
    requires v < Pow4(k) && Pow2(k) <= 0x1_0000_0000
    ensures Digits(v, TopBit(k), 0, v, 0, k)
  {
    assert 0 * Pow2(k) == 0;
  }

  lemma {:induction false} Pow2Sum(j: nat, k: nat)
    ensures Pow2(j + k) == Pow2(j) * Pow2(k)
  {
    if j > 0 {
      Pow2Sum(j - 1, k);
    }
  }

  lemma WordBits()
    ensures Pow2(32) == 0x1_0000_0000 && TopBit(32) == 0x4000_0000_0000_0000
  {
    assert Pow2(8) == 256;
    Pow2Sum(8, 8);
    assert Pow2(16) == 0x1_0000;
    Pow2Sum(16, 16);
    assert Pow2(32) == 2 * Pow2(31);
  }

  /** The two loops of the source over 64-bit words; every intermediate value fits. */
  method Isqrt64(value: U64) returns (r: U32)
    ensures r as int == Isqrt(value as int)
  {
    var v := value;
    var bit: U64 := 0x4000_0000_0000_0000;
    var res: U64 := 0;
    ghost var k: nat := 32;
    WordBits();
    while bit > v
      invariant k <= 32 && bit as int == TopBit(k) && Pow2(k) <= 0x1_0000_0000
      invariant value as int < Pow4(k)
      decreases bit
    {
      TopBitShift(k);
      bit := bit / 4;
      k := k - 1;
    }
    ghost var root: nat := 0;
    FirstDigit(value as int, k);
    while bit != 0
      invariant Digits(value as int, bit as int, res as int, v as int, root, k)
      decreases k
    {
      NextDigitFits(value as int, bit as int, res as int, v as int, root, k);
      NextDigit(value as int, bit as int, res as int, v as int, root, k);
      if v >= res + bit {
        v := v - (res + bit);
        res := res / 2 + bit;
        root := root + Pow2(k - 1);
      } else {
        res := res / 2;
      }
      bit := bit / 4;
      k := k - 1;
    }
    LastDigit(value as int, bit as int, res as int, v as int, root, k);
    r := res as U32;
  }

  // ---------- Arc tangent ----------

  /** The slope of a direction in its octant, as hundredths of a degree between 0 and 45 degrees. */
  function Slope(n: nat, d: nat): nat
    requires d > 0
  {
    n * 4500 / d
  }

  function Atan2Cd(y: int, x: int): int {
    var ax, ay := Abs(x), Abs(y);
    if ax == 0 && ay == 0 then 0
    else
      var base := if ax >= ay then Slope(ay, ax) else 9000 - Slope(ax, ay);
      if x >= 0 then (if y >= 0 then base else -base)
      else if y >= 0 then 18000 - base else base - 18000
  }

  lemma MulMonotone(a: nat, b: nat, c: nat)
    ensures a <= b ==> c * a <= c * b
  {
    if a <= b {
      assert c * b - c * a == c * (b - a);
    }
  }

  lemma QuotientIs(a: nat, d: nat, q: nat)
    requires d > 0
    ensures d * (a / d) <= a < d * (a / d) + d
    ensures d * q == a ==> a / d == q
  {
    assert a == d * (a / d) + a % d;
    if d * q == a {
      assert d * (q - a / d) == a % d;
      MulMonotone(1, Abs(q - a / d), d);
    }
  }

  lemma SlopeBound(n: nat, d: nat)
    requires n <= d && d > 0
    ensures Slope(n, d) <= 4500 && (n == d <==> Slope(n, d) == 4500)
    ensures n == 0 ==> Slope(n, d) == 0
  {
    QuotientIs(n * 4500, d, Slope(n, d));
    QuotientIs(d * 4500, d, 4500);
    MulMonotone(n, d, 4500);
    MulMonotone(Slope(n, d), 4500, d);
    MulMonotone(4501, Slope(n, d), d);
  }

  lemma MulSigns(a: int, b: int)
    ensures b > 0 ==> (a < 0 <==> a * b < 0) && (a == 0 <==> a * b == 0)
  {
    if b > 0 {
      if a < 0 { assert a * b < 0; } else if a > 0 { assert a * b > 0; }
    }
  }

  lemma Swap(a: nat, b: nat, c: nat)
    ensures (a * b) * c == a * (b * c) == b * (a * c)
    ensures (a * b) * c == c * (b * a)
  {
  }

  lemma Distribute(a: nat, b: nat)
    ensures a * (b + 1) == a * b + a
  {
  }

  lemma CrossChain(n1: nat, d1: nat, n2: nat, d2: nat, q1: nat, q2: nat)
    requires d1 > 0 && d2 > 0 && n1 * d2 <= n2 * d1
    requires d1 * q1 <= n1 * 4500 && n2 * 4500 < d2 * (q2 + 1)
    ensures (d1 * d2) * q1 < (d1 * d2) * (q2 + 1)
  {
    Swap(d1, d2, q1);
    MulMonotone(d1 * q1, n1 * 4500, d2);
    Swap(d2, n1, 4500);
    Swap(d1, n2, 4500);
    MulMonotone(n2 * 4500 + 1, d2 * (q2 + 1), d1);
    Swap(d1, d2, q2 + 1);
    Distribute(d1, n2 * 4500);
  }

  /** If n1/d1 <= n2/d2 then so are the slopes. */
  lemma SlopeMonotone(n1: nat, d1: nat, n2: nat, d2: nat)
    requires d1 > 0 && d2 > 0 && n1 * d2 <= n2 * d1
    ensures Slope(n1, d1) <= Slope(n2, d2)
  {
    var q1, q2 := Slope(n1, d1), Slope(n2, d2);
    assert d1 * q1 <= n1 * 4500;
    assert n2 * 4500 < d2 * (q2 + 1);
    if q2 < q1 {
      MulMonotone(q2 + 1, q1, d1 * d2);
      CrossChain(n1, d1, n2, d2, q1, q2);
    }
  }

  lemma SlopeScales(k: nat, n: nat, d: nat)
    requires k > 0 && d > 0
    ensures k * d > 0 && Slope(k * n, k * d) == Slope(n, d)
  {
    assert k * d > 0;
    assert (k * n) * d == n * (k * d);
    SlopeMonotone(k * n, k * d, n, d);
    SlopeMonotone(n, d, k * n, k * d);
  }

  lemma Atan2Range(y: int, x: int)
    ensures -18000 <= Atan2Cd(y, x) <= 18000
    ensures x >= 0 ==> -9000 <= Atan2Cd(y, x) <= 9000
    ensures y >= 0 ==> 0 <= Atan2Cd(y, x)
  {
    if Abs(x) >= Abs(y) && x != 0 { SlopeBound(Abs(y), Abs(x)); }
    if Abs(x) < Abs(y) { SlopeBound(Abs(x), Abs(y)); }
  }

  /** Complementary angles of the first quadrant add up to a right angle. */
  lemma Atan2Complement(y: nat, x: nat)
    requires x > 0 || y > 0
    ensures Atan2Cd(y, x) + Atan2Cd(x, y) == 9000
  {
    if x == y { SlopeBound(x, y); }
  }

  lemma SignOfScaled(k: nat, v: int)
    requires k > 0
    ensures (k * v >= 0 <==> v >= 0) && (k * v == 0 <==> v == 0)
    ensures Abs(k * v) == k * Abs(v)
  {
    if v < 0 { assert k * v < 0; }
  }

  lemma ScaledParts(k: nat, y: int, x: int)
    requires k > 0
    ensures Abs(k * x) == k * Abs(x) && Abs(k * y) == k * Abs(y)
    ensures (k * x >= 0 <==> x >= 0) && (k * y >= 0 <==> y >= 0)
    ensures Abs(k * x) >= Abs(k * y) <==> Abs(x) >= Abs(y)
    ensures Abs(k * x) == 0 <==> Abs(x) == 0
    ensures Abs(k * y) == 0 <==> Abs(y) == 0
  {
    SignOfScaled(k, x);
    SignOfScaled(k, y);
    SignOfScaled(k, Abs(x) - Abs(y));
    assert k * Abs(x) - k * Abs(y) == k * (Abs(x) - Abs(y));
  }

  /** The length of the vector does not matter. */
  lemma Atan2Scales(k: nat, y: int, x: int)
    requires k > 0
    ensures Atan2Cd(k * y, k * x) == Atan2Cd(y, x)
  {
    ScaledParts(k, y, x);
    var ax, ay := Abs(x), Abs(y);
    if ax >= ay && ax > 0 { SlopeScales(k, ay, ax); }
    if ax < ay { SlopeScales(k, ax, ay); }
  }

  /** Reflection in the x axis negates the angle, everywhere but on the negative half axis,
      where the code answers +180 degrees on both sides. */
  lemma Atan2OddExactly(y: int, x: int)
    ensures Atan2Cd(-y, x) == -Atan2Cd(y, x) <==> !(y == 0 && x < 0)
    ensures y == 0 && x < 0 ==> Atan2Cd(-y, x) == Atan2Cd(y, x) == 18000
  {
    if y == 0 && x < 0 {
      SlopeBound(0, Abs(x));
    } else if y == 0 && x > 0 {
      SlopeBound(0, x);
    }
  }

  /** In the first octant the angle is 45 degrees times the slope, rounded down. With the complement and the reflections
      in both axes that fixes every angle. */
  lemma Atan2FirstOctant(y: nat, x: nat)
    requires y <= x && x > 0
    ensures Atan2Cd(y, x) * x <= 4500 * y < (Atan2Cd(y, x) + 1) * x
  {
    QuotientIs(y * 4500, x, 0);
    Distribute(x, Slope(y, x));
  }

  /** Reflection in the y axis. */
  lemma Atan2Reflects(y: int, x: int)
    requires y >= 0 && x > 0
    ensures Atan2Cd(y, -x) == 18000 - Atan2Cd(y, x)
  {
  }

  // ---------- The angle grows with the direction ----------

  /** The octant of the upper half plane that a direction lies in, from the positive x axis on. */
  function Octant(y: int, x: int): nat {
    if x >= y then 1 else if x >= 0 then 2 else if x > -y then 3 else 4
  }

  lemma OctantValue(y: int, x: int)
    requires y > 0
    ensures Octant(y, x) == 1 ==> Atan2Cd(y, x) == Slope(y, x) && 0 <= Atan2Cd(y, x) <= 4500
    ensures Octant(y, x) == 2 ==> Atan2Cd(y, x) == 9000 - Slope(x, y) && 4500 <= Atan2Cd(y, x) <= 9000
    ensures Octant(y, x) == 3 ==> Atan2Cd(y, x) == 9000 + Slope(-x, y) && 9000 <= Atan2Cd(y, x) <= 13500
    ensures Octant(y, x) == 4 ==> Atan2Cd(y, x) == 18000 - Slope(y, -x) && 13500 <= Atan2Cd(y, x) <= 18000
  {
    if Abs(x) >= y { SlopeBound(y, Abs(x)); } else { SlopeBound(Abs(x), y); }
  }

  lemma OctantMonotone(y1: int, x1: int, y2: int, x2: int)
    requires y1 > 0 && y2 > 0 && x1 * y2 - x2 * y1 >= 0
    ensures Octant(y1, x1) <= Octant(y2, x2)
  {
    // Compare both quotients x/y with 1, 0 and -1: the larger quotient belongs to the smaller angle.
    MulSigns(x1 - y1, y2);
    MulSigns(x2 - y2, y1);
    MulSigns(x1, y2);
    MulSigns(x2, y1);
    MulSigns(x1 + y1, y2);
    MulSigns(x2 + y2, y1);
    assert (x1 - y1) * y2 - (x2 - y2) * y1 == x1 * y2 - x2 * y1;
    assert (x1 + y1) * y2 - (x2 + y2) * y1 == x1 * y2 - x2 * y1;
  }

  /** For two directions in the open upper half plane, turning left does not decrease the angle. */
  lemma Atan2MonotoneUpper(y1: int, x1: int, y2: int, x2: int)
    requires y1 > 0 && y2 > 0 && x1 * y2 - x2 * y1 >= 0
    ensures Atan2Cd(y1, x1) <= Atan2Cd(y2, x2)
  {
    OctantMonotone(y1, x1, y2, x2);
    OctantValue(y1, x1);
    OctantValue(y2, x2);
    if Octant(y1, x1) == Octant(y2, x2) {
      match Octant(y1, x1) {
        case 1 => SlopeMonotone(y1, x1, y2, x2);
        case 2 => SlopeMonotone(x2, y2, x1, y1);
        case 3 => SlopeMonotone(-x1, y1, -x2, y2);
        case _ => SlopeMonotone(y2, -x2, y1, -x1);
      }
    }
  }

  /** The same on the closed half plane, as long as not both directions lie on the axis. */
  lemma Atan2Monotone(y1: int, x1: int, y2: int, x2: int)
    requires y1 >= 0 && y2 >= 0 && (y1 > 0 || y2 > 0)
    requires (x1 != 0 || y1 != 0) && (x2 != 0 || y2 != 0)
    requires x1 * y2 - x2 * y1 >= 0
    ensures Atan2Cd(y1, x1) <= Atan2Cd(y2, x2)
  {
    Atan2Range(y1, x1);
    Atan2Range(y2, x2);
    if y1 == 0 {
      MulSigns(x1, y2);
      SlopeBound(0, x1);
    } else if y2 == 0 {
      MulSigns(-x2, y1);
      SlopeBound(0, -x2);
    } else {
      Atan2MonotoneUpper(y1, x1, y2, x2);
    }
  }

  // ---------- Attitude from one set of samples ----------

  /** Compass heading: the same angle counted from 0 to 360 degrees. */
  function HeadingCd(y: int, x: int): int {
    var a := Atan2Cd(y, x);
    if a < 0 then a + 36000 else a
  }

  /** Pitch against the horizontal length of the measured gravity vector. */
  function PitchCd(ax: int, ay: int, az: int): int {
    Atan2Cd(-ax, Isqrt(Abs(ay) * Abs(ay) + Abs(az) * Abs(az)))
  }

  lemma SlopeZero(h: nat)
    ensures Atan2Cd(0, h) == 0
  {
    if h > 0 { SlopeBound(0, h); }
  }

  /** The heading is the one angle from 0 to 360 degrees in the direction of the field. */
  lemma HeadingContract(y: int, x: int)
    ensures 0 <= HeadingCd(y, x) < 36000
    ensures (HeadingCd(y, x) - Atan2Cd(y, x)) % 36000 == 0
  {
    Atan2Range(y, x);
  }

  /** The length of the horizontal part of the measured gravity, rounded down. */
  predicate Horizontal(h: nat, ay: int, az: int) { h * h <= ay * ay + az * az < (h + 1) * (h + 1) }

  lemma PitchIsAngle(ax: int, ay: int, az: int, h: nat)
    requires Horizontal(h, ay, az)
    ensures PitchCd(ax, ay, az) == Atan2Cd(-ax, h)
    ensures PitchCd(-ax, ay, az) == -PitchCd(ax, ay, az)
  {
    assert Abs(ay) * Abs(ay) == ay * ay && Abs(az) * Abs(az) == az * az;
    IsqrtUnique(ay * ay + az * az, h);
    Atan2OddExactly(-ax, h);
  }

  /** What a positive angle of the first quadrant is. */
  lemma Atan2Lean(a: nat, h: nat)
    ensures Atan2Cd(a, h) >= 0 && (Atan2Cd(a, h) == 0 <==> a == 0 || 4500 * a < h)
    ensures 0 < a <= h ==> Atan2Cd(a, h) * h <= 4500 * a < (Atan2Cd(a, h) + 1) * h
    ensures a > h ==> Atan2Cd(a, h) == 9000 - Atan2Cd(h, a)
  {
    Atan2Range(a, h);
    SlopeZero(h);
    if 0 < a <= h {
      Atan2FirstOctant(a, h);
      if Atan2Cd(a, h) >= 1 { MulMonotone(1, Atan2Cd(a, h), h); }
    } else if a > h {
      Atan2Complement(a, h);
      SlopeBound(h, a);
    }
  }

  /** Pitch is positive as far as gravity points against the x axis: it has the sign of -ax, up to slopes too small for
      a hundredth of a degree, and below 45 degrees it is 45 degrees times that slope, rounded toward level. */
  lemma PitchContract(ax: int, ay: int, az: int, h: nat)
    requires Horizontal(h, ay, az)
    ensures ax >= 0 ==> PitchCd(ax, ay, az) <= 0
    ensures ax <= 0 ==> PitchCd(ax, ay, az) >= 0
    ensures PitchCd(ax, ay, az) == 0 <==> ax == 0 || 4500 * Abs(ax) < h
    ensures 0 < Abs(ax) <= h ==> Abs(PitchCd(ax, ay, az)) * h <= 4500 * Abs(ax) < (Abs(PitchCd(ax, ay, az)) + 1) * h
    ensures Abs(ax) > h ==> Abs(PitchCd(ax, ay, az)) == 9000 - Atan2Cd(h, Abs(ax))
  {
    PitchIsAngle(ax, ay, az, h);
    PitchIsAngle(-ax, ay, az, h);
    Atan2Lean(Abs(ax), h);
    hide PitchCd, Atan2Cd, Horizontal;
    assert ax <= 0 ==> PitchCd(ax, ay, az) == Atan2Cd(Abs(ax), h);
    assert ax >= 0 ==> PitchCd(ax, ay, az) == -Atan2Cd(Abs(ax), h);
  }

  class Attitude {
    var attOk: bool
    var rollCd: int
    var pitchCd: int
    var yawCd: int
    var rateRoll: int
    var ratePitch: int
    var rateYaw: int

    constructor ()
      ensures !attOk && InRange()
    {
      attOk := false;
      rollCd, pitchCd, yawCd := 0, 0, 0;
      rateRoll, ratePitch, rateYaw := 0, 0, 0;
    }

    ghost predicate InRange()
      reads this
    {
      -18000 <= rollCd <= 18000 && -9000 <= pitchCd <= 9000 && 0 <= yawCd <= 35999
    }

    /** Roll and pitch from the accelerometer, yaw from the magnetometer, rates from the gyroscope. */
    method UpdateOnce(sensorReady: bool, hmcOk: bool, mpuOk: bool,
                      ax: Sample, ay: Sample, az: Sample, gx: int, gy: int, gz: int,
                      hx: Sample, hy: Sample)
      requires InRange()
      modifies this
      ensures attOk == (sensorReady && hmcOk && mpuOk)
      ensures InRange()
      ensures attOk ==> (
        && rollCd == Atan2Cd(ay, az)
        && pitchCd == PitchCd(ax, ay, az)
        && yawCd == HeadingCd(hy, hx)
        && (rateRoll, ratePitch, rateYaw) == (gx, gy, gz))
      ensures !attOk ==> (
        && (rollCd, pitchCd, yawCd) == old((rollCd, pitchCd, yawCd))
        && (rateRoll, ratePitch, rateYaw) == old((rateRoll, ratePitch, rateYaw)))
    {
      attOk := false;
      if !sensorReady {
        return;
      }
      if !hmcOk || !mpuOk {
        return;
      }
      rateRoll, ratePitch, rateYaw := gx, gy, gz;
      SquareMonotone(Abs(ay), 0x8000);
      SquareMonotone(Abs(az), 0x8000);
      var ay2 := Abs(ay) * Abs(ay);
      var az2 := Abs(az) * Abs(az);
      var horiz := Isqrt64((ay2 + az2) as U64);
      var down: int := ax;
      Atan2Range(ay, az);
      Atan2Range(-down, horiz as int);
      Atan2Range(hy, hx);
      rollCd := Atan2Cd(ay, az);
      pitchCd := Atan2Cd(-down, horiz as int);
      yawCd := Atan2Cd(hy, hx);
      if yawCd < 0 {
        yawCd := yawCd + 36000;
      }
      attOk := true;
    }
  }
}
