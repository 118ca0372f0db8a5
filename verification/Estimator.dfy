/**
 The attitude estimator in real arithmetic: a two-state Kalman filter per axis (angle and gyro bias)
 and the correction of the integrated yaw towards the magnetic heading.
 */
module Estimator {
  import opened Numbers

  // ---------- The textbook filter ----------

  /** The matrix with rows (a b) and (c d). */
  datatype Mat = Mat(a: real, b: real, c: real, d: real)

  function Mul(x: Mat, y: Mat): Mat {
    Mat(x.a * y.a + x.b * y.c, x.a * y.b + x.b * y.d,
        x.c * y.a + x.d * y.c, x.c * y.b + x.d * y.d)
  }

  function Add(x: Mat, y: Mat): Mat {
    Mat(x.a + y.a, x.b + y.b, x.c + y.c, x.d + y.d)
  }

  function Transpose(x: Mat): Mat {
    Mat(x.a, x.c, x.b, x.d)
  }

  function Det(x: Mat): real {
    x.a * x.d - x.b * x.c
  }

  const Q_ANGLE := 0.001
  const Q_BIAS := 0.003
  const R_MEASURE := 0.03

  /** Angle and bias after dt: the angle drifts by the bias, the bias stays. */
  function Transition(dt: real): Mat {
    Mat(1.0, -dt, 0.0, 1.0)
  }

  /** F P F' + dt Q. */
  function Predict(p: Mat, dt: real): Mat {
    Add(Mul(Mul(Transition(dt), p), Transpose(Transition(dt))), Mat(Q_ANGLE * dt, 0.0, 0.0, Q_BIAS * dt))
  }

  /** (I - K H) P for a direct measurement of the angle. */
  function Correct(p: Mat): Mat
    requires p.a + R_MEASURE != 0.0
  {
    var k0, k1 := p.a / (p.a + R_MEASURE), p.c / (p.a + R_MEASURE);
    Mul(Mat(1.0 - k0, 0.0, -k1, 1.0), p)
  }

  ghost predicate Covariance(p: Mat) {
    p.b == p.c && p.a > 0.0 && p.d > 0.0 && Det(p) > 0.0
  }

  datatype Filter = Filter(angle: real, bias: real, p: Mat)

  const INITIAL := Filter(0.0, 0.0, Mat(1.0, 0.0, 0.0, 1.0))

  datatype Measurement = Measurement(angle: real, rate: real, dt: real)

  function Predicted(f: Filter, rate: real, dt: real): Filter {
    Filter(f.angle + dt * (rate - f.bias), f.bias, Predict(f.p, dt))
  }

  function Corrected(f: Filter, angle: real): Filter
    requires f.p.a + R_MEASURE != 0.0
  {
    var innovation := angle - f.angle;
    Filter(f.angle + f.p.a / (f.p.a + R_MEASURE) * innovation,
           f.bias + f.p.c / (f.p.a + R_MEASURE) * innovation,
           Correct(f.p))
  }

  // ---------- The filter of the source ----------

  lemma PredictWritten(p: Mat, dt: real)
    ensures Predict(p, dt) == Mat(p.a + dt * (dt * p.d - p.b - p.c + Q_ANGLE),
                                  p.b - dt * p.d, p.c - dt * p.d, p.d + Q_BIAS * dt)
  {
  }

  lemma RowEntry(k: real, x: real, y: real)
    ensures (1.0 - k) * x + 0.0 * y == x - k * x
    ensures -k * x + 1.0 * y == y - k * x
  {
  }

  lemma CorrectionRow(k0: real, k1: real, a: real, b: real, c: real, d: real)
    ensures Mul(Mat(1.0 - k0, 0.0, -k1, 1.0), Mat(a, b, c, d))
         == Mat(a - k0 * a, b - k0 * b, c - k1 * a, d - k1 * b)
  {
    var m := Mul(Mat(1.0 - k0, 0.0, -k1, 1.0), Mat(a, b, c, d));
    RowEntry(k0, a, c);
    assert m.a == a - k0 * a;
    RowEntry(k0, b, d);
    assert m.b == b - k0 * b;
    RowEntry(k1, a, c);
    assert m.c == c - k1 * a;
    RowEntry(k1, b, d);
    assert m.d == d - k1 * b;
  }

  lemma CorrectWritten(p: Mat)
    requires p.a + R_MEASURE != 0.0
    ensures var k0, k1 := p.a / (p.a + R_MEASURE), p.c / (p.a + R_MEASURE);
            Correct(p) == Mat(p.a - k0 * p.a, p.b - k0 * p.b, p.c - k1 * p.a, p.d - k1 * p.b)
  {
    var k0, k1 := p.a / (p.a + R_MEASURE), p.c / (p.a + R_MEASURE);
    CorrectionRow(k0, k1, p.a, p.b, p.c, p.d);
    assert Correct(p) == Mul(Mat(1.0 - k0, 0.0, -k1, 1.0), p);
  }

  // ---------- Covariance for ever ----------

  lemma Signs(x: real, y: real)
    ensures y > 0.0 ==> (x * y > 0.0 <==> x > 0.0) && (x * y < 0.0 <==> x < 0.0)
    ensures x >= 0.0 && y >= 0.0 ==> x * y >= 0.0
    ensures x * x >= 0.0
  {
  }

  function Portion(error: real, alpha: real): real {
    error * alpha
  }

  lemma Cancel(x: real, y: real, s: real)
    requires s > 0.0
    ensures x / s * s == x
    ensures x * s == y * s <==> x == y
    ensures x * s < y * s <==> x < y
  {
    assert x * s - y * s == (x - y) * s;
    Signs(x - y, s);
  }

  lemma Expand(x: real, u: real, y: real, v: real)
    ensures (x + u) * (y + v) == x * y + x * v + u * (y + v)
  {
  }

  lemma ShiftedDet(a: real, b: real, d: real, dt: real)
    ensures (a + dt * (dt * d - b - b)) * d - (b - dt * d) * (b - dt * d) == a * d - b * b
  {
  }

  /** The quadratic form of a positive definite matrix is positive at (1, -dt). */
  lemma ShiftedPositive(p: Mat, dt: real)
    requires Covariance(p)
    ensures var shifted, cross := p.a + dt * (dt * p.d - p.b - p.c), p.b - dt * p.d;
            shifted > 0.0 && shifted * p.d - cross * cross == Det(p)
  {
    var shifted, cross := p.a + dt * (dt * p.d - p.b - p.c), p.b - dt * p.d;
    ShiftedDet(p.a, p.b, p.d, dt);
    Signs(cross, cross);
    Signs(shifted, p.d);
  }

  lemma PredictParts(p: Mat, dt: real, n: Mat, shifted: real, cross: real, u: real, v: real)
    requires shifted > 0.0 && p.d > 0.0 && u >= 0.0 && v >= 0.0
    requires shifted * p.d - cross * cross == Det(p) > 0.0
    requires n == Mat(shifted + u, cross, cross, p.d + v)
    ensures Covariance(n) && Det(n) >= Det(p)
  {
    Expand(shifted, u, p.d, v);
    Signs(shifted, v);
    Signs(u, p.d + v);
  }

  /** Prediction keeps the matrix symmetric and positive definite. */
  lemma PredictKeepsCovariance(p: Mat, dt: real)
    requires Covariance(p) && dt >= 0.0
    ensures Covariance(Predict(p, dt))
    ensures Det(Predict(p, dt)) >= Det(p)
  {
    PredictWritten(p, dt);
    ShiftedPositive(p, dt);
    PredictParts(p, dt, Predict(p, dt), p.a + dt * (dt * p.d - p.b - p.c), p.b - dt * p.d, Q_ANGLE * dt, Q_BIAS * dt);
  }

  lemma Gains(a: real, c: real, s: real, k0: real, k1: real, w: real)
    requires a > 0.0 && s == a + R_MEASURE && k0 * s == a && k1 * s == c && w * s == R_MEASURE
    ensures 0.0 < k0 < 1.0 && 0.0 < w < 1.0 && k0 + w == 1.0
    ensures k1 * a == k0 * c
  {
    Signs(k0, s);
    Signs(w, s);
    assert (k0 + w) * s == 1.0 * s;
    Cancel(k0 + w, 1.0, s);
    assert (k1 * a) * s == (k0 * c) * s;
    Cancel(k1 * a, k0 * c, s);
  }

  lemma Shrunk(x: real, k0: real, w: real)
    requires k0 + w == 1.0
    ensures x - k0 * x == w * x
  {
    assert w == 1.0 - k0;
  }

  /** A correction scales the first row and column by one minus the gain. */
  lemma CorrectShrinks(p: Mat) returns (w: real, k1: real)
    requires Covariance(p)
    ensures p.a + R_MEASURE > 0.0 && 0.0 < p.a / (p.a + R_MEASURE) < 1.0
    ensures w * (p.a + R_MEASURE) == R_MEASURE && k1 * (p.a + R_MEASURE) == p.c && 0.0 < w < 1.0
    ensures Correct(p) == Mat(w * p.a, w * p.b, w * p.c, p.d - k1 * p.b)
  {
    var s := p.a + R_MEASURE;
    var k0 := p.a / s;
    k1, w := p.c / s, R_MEASURE / s;
    Cancel(p.a, 0.0, s);
    Cancel(p.c, 0.0, s);
    Cancel(R_MEASURE, 0.0, s);
    Gains(p.a, p.c, s, k0, k1, w);
    CorrectWritten(p);
    Shrunk(p.a, k0, w);
    Shrunk(p.b, k0, w);
    Shrunk(p.c, k0, w);
  }

  lemma PosteriorVariance(a: real, w: real, s: real)
    requires a > 0.0 && s == a + R_MEASURE && w * s == R_MEASURE && 0.0 < w < 1.0
    ensures 0.0 < w * a < a && w * a < R_MEASURE
    ensures 1.0 / (w * a) == 1.0 / a + 1.0 / R_MEASURE
  {
    Signs(w, a);
    Signs(1.0 - w, a);
    assert w * a == w * s - w * R_MEASURE;
    Signs(w, R_MEASURE);
    var x, y := 1.0 / a, 1.0 / R_MEASURE;
    Cancel(1.0, 0.0, a);
    assert x * a == 1.0 && y * R_MEASURE == 1.0;
    // (x + y) * w * a * R == (R + a) * w == R
    assert (x * (w * a)) == w * (x * a) == w;
    assert (y * (w * a)) * R_MEASURE == w * a;
    assert ((x + y) * (w * a)) * R_MEASURE == w * R_MEASURE + w * a == R_MEASURE;
    Cancel((x + y) * (w * a), 1.0, R_MEASURE);
    Cancel(1.0, 0.0, w * a);
    Cancel(x + y, 1.0 / (w * a), w * a);
  }

  lemma DetOverS(a: real, b: real, d: real, k1: real, s: real, nd: real)
    requires s == a + R_MEASURE && k1 * s == b && nd == d - k1 * b
    ensures nd * s == (a * d - b * b) + R_MEASURE * d
    ensures (a * nd) * s == a * (a * d - b * b) + a * (R_MEASURE * d)
  {
    assert (k1 * b) * s == (k1 * s) * b == b * b;
    assert (d - k1 * b) * s == d * s - (k1 * b) * s;
    assert (a * nd) * s == a * (nd * s);
  }

  lemma ScaledDet(p: Mat, w: real, n: Mat)
    requires n == Mat(w * p.a, w * p.b, w * p.c, n.d) && p.b == p.c
    requires p.a * n.d - w * (p.b * p.b) == Det(p)
    ensures Det(n) == w * Det(p)
  {
    assert (w * p.a) * n.d == w * (p.a * n.d);
    assert (w * p.b) * (w * p.c) == w * (w * (p.b * p.b));
  }

  lemma PosteriorDet(p: Mat, w: real, k1: real, s: real)
    requires Covariance(p) && 0.0 < w && s == p.a + R_MEASURE && w * s == R_MEASURE && k1 * s == p.c
    ensures var n := Mat(w * p.a, w * p.b, w * p.c, p.d - k1 * p.b);
            Det(n) * s == R_MEASURE * Det(p) && Det(n) > 0.0 && n.d > 0.0
  {
    var n := Mat(w * p.a, w * p.b, w * p.c, p.d - k1 * p.b);
    DetOverS(p.a, p.b, p.d, k1, s, n.d);
    Signs(p.d, R_MEASURE);
    Signs(n.d, s);
    Cancel(p.a * n.d - w * (p.b * p.b), Det(p), s);
    ScaledDet(p, w, n);
    Signs(w, Det(p));
    assert (w * Det(p)) * s == (w * s) * Det(p);
  }

  /** Correction keeps it so as well, with a gain strictly between 0 and 1 and a posterior variance
      that adds the information of the prediction and of the measurement. */
  lemma CorrectKeepsCovariance(p: Mat)
    requires Covariance(p)
    ensures p.a + R_MEASURE > 0.0 && 0.0 < p.a / (p.a + R_MEASURE) < 1.0
    ensures Covariance(Correct(p))
    ensures Correct(p).a < R_MEASURE && Correct(p).a < p.a
    ensures 1.0 / Correct(p).a == 1.0 / p.a + 1.0 / R_MEASURE
    ensures Det(Correct(p)) * (p.a + R_MEASURE) == R_MEASURE * Det(p)
  {
    var w, k1 := CorrectShrinks(p);
    PosteriorVariance(p.a, w, p.a + R_MEASURE);
    PosteriorDet(p, w, k1, p.a + R_MEASURE);
  }

  // ---------- The filter object ----------

  class AxisKalman {
    var angleDeg: real
    var biasDps: real
    var p00: real
    var p01: real
    var p10: real
    var p11: real

    ghost function Value(): Filter
      reads this
    {
      Filter(angleDeg, biasDps, Mat(p00, p01, p10, p11))
    }

    constructor ()
      ensures Value() == INITIAL && Covariance(Value().p)
    {
      angleDeg, biasDps := 0.0, 0.0;
      p00, p01, p10, p11 := 1.0, 0.0, 0.0, 1.0;
    }

    method PredictInPlace(measuredRateDps: real, dtS: real)
      modifies this
      ensures Value() == Predicted(old(Value()), measuredRateDps, dtS)
    {
      PredictWritten(Value().p, dtS);
      var rate := measuredRateDps - biasDps;
      angleDeg := angleDeg + dtS * rate;

      p00 := p00 + dtS * (dtS * p11 - p01 - p10 + Q_ANGLE);
      p01 := p01 - dtS * p11;
      p10 := p10 - dtS * p11;
      p11 := p11 + Q_BIAS * dtS;
    }

    method CorrectInPlace(measuredAngleDeg: real)
      requires p00 + R_MEASURE != 0.0
      modifies this
      ensures Value() == Corrected(old(Value()), measuredAngleDeg)
    {
      CorrectWritten(Value().p);
      var innovation := measuredAngleDeg - angleDeg;
      var innovationCov := p00 + R_MEASURE;
      var k0 := p00 / innovationCov;
      var k1 := p10 / innovationCov;

      angleDeg := angleDeg + k0 * innovation;
      biasDps := biasDps + k1 * innovation;

      var p00Temp := p00;
      var p01Temp := p01;
      p00 := p00 - k0 * p00Temp;
      p01 := p01 - k0 * p01Temp;
      p10 := p10 - k1 * p00Temp;
      p11 := p11 - k1 * p01Temp;
    }

    /** The in-place sequence of assignments computes one prediction and one correction. */
    method Update(measuredAngleDeg: real, measuredRateDps: real, dtS: real) returns (r: real)
      requires Covariance(Value().p) && dtS >= 0.0
      modifies this
      ensures Covariance(Value().p)
      ensures var f := Predicted(old(Value()), measuredRateDps, dtS);
              && f.p.a + R_MEASURE > 0.0
              && Value() == Corrected(f, measuredAngleDeg)
      ensures r == angleDeg
    {
      PredictKeepsCovariance(Value().p, dtS);
      PredictInPlace(measuredRateDps, dtS);
      CorrectKeepsCovariance(Value().p);
      CorrectInPlace(measuredAngleDeg);
      r := angleDeg;
    }
  }

  // ---------- Every run of the filter ----------

  ghost predicate AllProper(ms: seq<Measurement>) {
    forall m :: m in ms ==> m.dt >= 0.0
  }

  /** The filter after a list of measurements; nothing on the way divides by zero. */
  function Run(f: Filter, ms: seq<Measurement>): (r: Filter)
    requires Covariance(f.p) && AllProper(ms)
    ensures Covariance(r.p)
    ensures ms != [] ==> r.p.a < R_MEASURE
    decreases |ms|
  {
    if ms == [] then f
    else
      PredictKeepsCovariance(f.p, ms[0].dt);
      CorrectKeepsCovariance(Predict(f.p, ms[0].dt));
      Run(Corrected(Predicted(f, ms[0].rate, ms[0].dt), ms[0].angle), ms[1..])
  }

  /** The reading of the filter never leaves the gap between prediction and measurement. */
  ghost predicate Between(x: real, y: real, z: real) {
    (y == x && z == x) || x < z < y || y < z < x
  }

  lemma MixesBetween(x: real, y: real, k: real)
    requires 0.0 < k < 1.0
    ensures Between(x, y, x + k * (y - x))
  {
    Signs(y - x, k);
    Signs(y - x, 1.0 - k);
    assert (y - x) * (1.0 - k) == (y - x) - k * (y - x);
  }

  lemma CorrectionLiesBetween(f: Filter, angle: real)
    requires Covariance(f.p)
    ensures f.p.a + R_MEASURE > 0.0 && Between(f.angle, angle, Corrected(f, angle).angle)
  {
    CorrectKeepsCovariance(f.p);
    MixesBetween(f.angle, angle, f.p.a / (f.p.a + R_MEASURE));
  }

  /** The correction that follows one prediction from `before` is defined and lies between. */
  ghost predicate NextLiesBetween(before: Filter, m: Measurement) {
    var f := Predicted(before, m.rate, m.dt);
    f.p.a + R_MEASURE > 0.0 && Between(f.angle, m.angle, Corrected(f, m.angle).angle)
  }

  lemma NextCorrectionLiesBetween(before: Filter, m: Measurement)
    requires Covariance(before.p) && m.dt >= 0.0
    ensures NextLiesBetween(before, m)
  {
    var f := Predicted(before, m.rate, m.dt);
    assert Covariance(f.p) by { PredictKeepsCovariance(before.p, m.dt); }
    CorrectionLiesBetween(f, m.angle);
  }

  /** In every run from the initial filter the next correction lands strictly between the predicted
      and the measured angle, or on both when they agree. */
  lemma EveryCorrectionLiesBetween(ms: seq<Measurement>, m: Measurement)
    requires AllProper(ms) && m.dt >= 0.0
    ensures NextLiesBetween(Run(INITIAL, ms), m)
  {
    NextCorrectionLiesBetween(Run(INITIAL, ms), m);
  }

  // ---------- What a correction is ----------

  function Square(x: real): real { Portion(x, x) }

  /** The squared distance of a state from the prediction, by the covariance (without its determinant). */
  function Spread(p: Mat, x: real, y: real): real {
    Portion(p.d, Square(x)) - 2.0 * Portion(p.b, Portion(x, y)) + Portion(p.a, Square(y))
  }

  /** How badly an angle and a bias fit a prediction and a measurement, each weighed by its own variance. */
  function Misfit(f: Filter, measured: real, angle: real, bias: real): real {
    Portion(R_MEASURE, Spread(f.p, angle - f.angle, bias - f.bias)) + Portion(Det(f.p), Square(measured - angle))
  }

  lemma PortionSigns(k: real, x: real)
    requires k > 0.0
    ensures (Portion(k, x) > 0.0 <==> x > 0.0) && (Portion(k, x) == 0.0 <==> x == 0.0)
  {
    Signs(x, k);
  }

  lemma SquareIsEven(x: real)
    ensures Portion(-x, -x) == Portion(x, x) && Portion(0.0, 0.0) == 0.0
  {
  }

  lemma SquareSigns(x: real)
    ensures Square(x) >= 0.0 && (Square(x) == 0.0 <==> x == 0.0)
  {
    SquareIsEven(x);
    hide Portion;
    if x > 0.0 {
      PortionSigns(x, x);
    } else if x < 0.0 {
      PortionSigns(-x, -x);
    }
  }

  lemma SpreadSquares(p: Mat, u: real, v: real)
    requires p.b == p.c
    ensures Portion(p.a, Spread(p, u, v)) == Square(p.a * v - p.b * u) + Portion(Det(p), Square(u))
    ensures u == 0.0 ==> Spread(p, u, v) == Portion(p.a, Square(v))
  {
    var a, b, d := p.a, p.b, p.d;
    assert (a * v - b * u) * (a * v - b * u) == a * a * (v * v) - 2.0 * (a * b) * (u * v) + b * b * (u * u);
  }

  lemma SpreadPositive(p: Mat, u: real, v: real)
    requires Covariance(p)
    ensures Spread(p, u, v) >= 0.0 && (Spread(p, u, v) == 0.0 <==> u == 0.0 && v == 0.0)
  {
    SpreadSquares(p, u, v);
    hide Spread, Square, Portion, Det;
    SquareSigns(u);
    SquareSigns(v);
    SquareSigns(p.a * v - p.b * u);
    PortionSigns(Det(p), Square(u));
    PortionSigns(p.a, Square(v));
    PortionSigns(p.a, Spread(p, u, v));
  }

  lemma ExpandedSquare(x: real, u: real)
    ensures Square(x + u) == Square(x) + 2.0 * Portion(x, u) + Square(u)
  {
  }

  lemma ExpandedProduct(x: real, u: real, y: real, v: real)
    ensures Portion(x + u, y + v) == Portion(x, y) + Portion(x, v) + Portion(u, y) + Portion(u, v)
  {
  }

  lemma SpreadTerms(p: Mat, x: real, y: real, u: real, v: real)
    ensures Portion(p.d, Square(x) + 2.0 * Portion(x, u) + Square(u))
      == Portion(p.d, Square(x)) + 2.0 * Portion(u, Portion(p.d, x)) + Portion(p.d, Square(u))
    ensures Portion(p.a, Square(y) + 2.0 * Portion(y, v) + Square(v))
      == Portion(p.a, Square(y)) + 2.0 * Portion(v, Portion(p.a, y)) + Portion(p.a, Square(v))
    ensures Portion(p.b, Portion(x, y) + Portion(x, v) + Portion(u, y) + Portion(u, v))
      == Portion(p.b, Portion(x, y)) + Portion(v, Portion(p.b, x)) + Portion(u, Portion(p.b, y))
         + Portion(p.b, Portion(u, v))
  {
    hide Square;
    PortionAdds(p.d, Square(x), 2.0 * Portion(x, u), Square(u));
    PortionAdds(p.a, Square(y), 2.0 * Portion(y, v), Square(v));
    PortionAdds(p.b, Portion(x, y), Portion(x, v) + Portion(u, y), Portion(u, v));
    Swapped(p.d, x, u);
    Swapped(p.a, y, v);
    Swapped(p.b, x, v);
    Swapped(p.b, y, u);
    PortionAdds(p.b, Portion(x, v), Portion(u, y), 0.0);
  }

  lemma PortionAdds(k: real, x: real, y: real, z: real)
    ensures Portion(k, x + y + z) == Portion(k, x) + Portion(k, y) + Portion(k, z)
    ensures Portion(k, 0.0) == 0.0 && Portion(k, -x) == -Portion(k, x)
  {
  }

  lemma Swapped(k: real, x: real, u: real)
    ensures Portion(k, Portion(x, u)) == Portion(k, Portion(u, x)) == Portion(u, Portion(k, x))
    ensures Portion(k, 2.0 * Portion(x, u)) == 2.0 * Portion(k, Portion(x, u))
  {
  }

  lemma SpreadShift(p: Mat, x: real, y: real, u: real, v: real, m: real, n: real)
    requires m == p.d * x - p.b * y && n == p.a * y - p.b * x
    ensures (Spread(p, x + u, y + v)
      == Spread(p, x, y) + Spread(p, u, v) + 2.0 * (Portion(u, m) + Portion(v, n)))
  {
    assert m == Portion(p.d, x) - Portion(p.b, y) && n == Portion(p.a, y) - Portion(p.b, x);
    hide Portion, Square;
    ExpandedSquare(x, u);
    ExpandedSquare(y, v);
    ExpandedProduct(x, u, y, v);
    SpreadTerms(p, x, y, u, v);
    PortionAdds(u, Portion(p.d, x), -Portion(p.b, y), 0.0);
    PortionAdds(u, Portion(p.b, y), 0.0, 0.0);
    PortionAdds(v, Portion(p.a, y), -Portion(p.b, x), 0.0);
    PortionAdds(v, Portion(p.b, x), 0.0, 0.0);
  }

  lemma SpreadWidens(p: Mat, x: real, y: real, dt: real, w: real)
    requires w == dt * y
    ensures (Spread(p, x + w, y)
      == Spread(p, x, y) + 2.0 * Portion(p.d, Portion(x, w)) + Portion(p.d, Square(w))
         - 2.0 * Portion(p.b, Portion(w, y)))
  {
    ExpandedSquare(x, w);
    ExpandedProduct(x, w, y, 0.0);
    hide Square;
    PortionAdds(p.d, Square(x), 2.0 * Portion(x, w), Square(w));
    PortionAdds(p.b, Portion(x, y), Portion(w, y), 0.0);
    Swapped(p.d, x, w);
  }

  lemma NoiseTerms(p: Mat, x: real, y: real, dt: real, w: real)
    requires w == dt * y
    ensures Portion(p.d + Q_BIAS * dt, Square(x)) == Portion(p.d, Square(x)) + Portion(dt, Q_BIAS * Square(x))
    ensures Portion(p.b - dt * p.d, Portion(x, y)) == Portion(p.b, Portion(x, y)) - Portion(p.d, Portion(x, w))
    ensures (Portion(p.a + dt * (dt * p.d - p.b - p.b + Q_ANGLE), Square(y))
      == Portion(p.a, Square(y)) + Portion(p.d, Square(w)) - 2.0 * Portion(p.b, Portion(w, y))
         + Portion(dt, Q_ANGLE * Square(y)))
  {
  }

  /** What is known of a combination of bias and angle follows from what was known of the same combination before the
      angle moved on, and from the noise of the time between. */
  lemma PredictionSpreads(p: Mat, x: real, y: real, dt: real)
    requires p.b == p.c
    ensures (Spread(Predict(p, dt), x, y)
      == Spread(p, x + dt * y, y) + Portion(dt, Q_BIAS * Square(x) + Q_ANGLE * Square(y)))
  {
    PredictWritten(p, dt);
    SpreadWidens(p, x, y, dt, dt * y);
    NoiseTerms(p, x, y, dt, dt * y);
    hide Portion, Square, Predict;
    PortionAdds(dt, Q_BIAS * Square(x), Q_ANGLE * Square(y), 0.0);
  }

  lemma Balance(a: real, c: real, s: real, z: real)
    requires s > 0.0 && s == a + R_MEASURE
    ensures R_MEASURE * (a / s * z) == a * (z - a / s * z) && R_MEASURE * (c / s * z) == c * (z - a / s * z)
  {
    var k0, k1 := a / s, c / s;
    Cancel(a, 0.0, s);
    Cancel(c, 0.0, s);
    assert (k0 * s) * z == (k0 * a) * z + R_MEASURE * (k0 * z);
    assert (k1 * s) * z == k1 * (k0 * s) * z + R_MEASURE * (k1 * z);
    assert k1 * (k0 * s) * z == (k1 * s) * (k0 * z);
  }

  /** The correction divides the remaining misfit between prediction and measurement. */
  lemma CorrectionBalances(f: Filter, measured: real)
    requires Covariance(f.p)
    ensures f.p.a + R_MEASURE > 0.0
    ensures (var g := Corrected(f, measured);
      && R_MEASURE * (g.angle - f.angle) == f.p.a * (measured - g.angle)
      && R_MEASURE * (g.bias - f.bias) == f.p.b * (measured - g.angle))
  {
    Balance(f.p.a, f.p.c, f.p.a + R_MEASURE, measured - f.angle);
  }

  lemma Balanced(p: Mat, r: real, x: real, y: real, w: real) returns (m: real, n: real)
    requires r * x == p.a * w && r * y == p.b * w && p.b == p.c
    ensures m == p.d * x - p.b * y && n == p.a * y - p.b * x
    ensures r * m == Det(p) * w && r * n == 0.0
  {
    m, n := p.d * x - p.b * y, p.a * y - p.b * x;
    assert r * (p.d * x) == p.d * (r * x) && r * (p.b * y) == p.b * (r * y);
    assert r * (p.a * y) == p.a * (r * y) && r * (p.b * x) == p.b * (r * x);
  }

  lemma Regroup(r: real, here: real, apart: real, u: real, v: real, p: real, q: real, w: real, det: real)
    requires r * p == det * w && r * q == 0.0
    ensures (Portion(r, here + apart + 2.0 * (Portion(u, p) + Portion(v, q))) + Portion(det, Square(w - u))
      == Portion(r, here) + Portion(det, Square(w)) + Portion(r, apart) + Portion(det, Square(u)))
  {
    assert r * (u * p) == u * (det * w) && r * (v * q) == v * (r * q) == 0.0;
    assert (w - u) * (w - u) == w * w - 2.0 * (w * u) + u * u;
    assert det * ((w - u) * (w - u)) == det * (w * w) - 2.0 * (det * (w * u)) + det * (u * u);
    assert det * (w * u) == u * (det * w);
  }

  /** Any other angle and bias fit worse, by this much. */
  lemma MisfitApart(f: Filter, measured: real, angle: real, bias: real)
    requires Covariance(f.p)
    ensures f.p.a + R_MEASURE > 0.0
    ensures (var g := Corrected(f, measured);
      Misfit(f, measured, angle, bias) == Misfit(f, measured, g.angle, g.bias)
        + Portion(R_MEASURE, Spread(f.p, angle - g.angle, bias - g.bias)) + Portion(Det(f.p), Square(angle - g.angle)))
  {
    CorrectionBalances(f, measured);
    var g, r := Corrected(f, measured), R_MEASURE;
    var x, y, u, v, w := g.angle - f.angle, g.bias - f.bias, angle - g.angle, bias - g.bias, measured - g.angle;
    hide Corrected, Det, Spread, Square, Portion;
    var m, n := Balanced(f.p, r, x, y, w);
    SpreadShift(f.p, x, y, u, v, m, n);
    Regroup(r, Spread(f.p, x, y), Spread(f.p, u, v), u, v, m, n, w, Det(f.p));
    assert Spread(f.p, angle - f.angle, bias - f.bias) == Spread(f.p, x + u, y + v);
    assert Square(measured - angle) == Square(w - u);
  }

  /** A correction is the least squares answer: no other angle and bias fit prediction and measurement as well. */
  lemma CorrectionFitsBest(f: Filter, measured: real, angle: real, bias: real)
    requires Covariance(f.p)
    ensures f.p.a + R_MEASURE > 0.0
    ensures (var g := Corrected(f, measured);
      && Misfit(f, measured, g.angle, g.bias) <= Misfit(f, measured, angle, bias)
      && (Misfit(f, measured, g.angle, g.bias) == Misfit(f, measured, angle, bias) <==>
            g.angle == angle && g.bias == bias))
  {
    MisfitApart(f, measured, angle, bias);
    var g := Corrected(f, measured);
    hide Corrected, Det, Spread, Square, Portion, Misfit;
    SpreadPositive(f.p, angle - g.angle, bias - g.bias);
    SquareSigns(angle - g.angle);
    PortionSigns(R_MEASURE, Spread(f.p, angle - g.angle, bias - g.bias));
    PortionSigns(Det(f.p), Square(angle - g.angle));
  }

  // ---------- Yaw ----------

  function WrapDown(a: real): real
    decreases if a > 180.0 then a.Floor else 0
  {
    if a > 180.0 then WrapDown(a - 360.0) else a
  }

  function WrapUp(a: real): real
    decreases if a < -180.0 then (-a).Floor else 0
  {
    if a < -180.0 then WrapUp(a + 360.0) else a
  }

  function Wrap(a: real): real {
    WrapUp(WrapDown(a))
  }

  function Turns(k: int): real {
    360.0 * k as real
  }

  /** Equal up to whole turns. */
  ghost predicate SameDirection(a: real, b: real) {
    exists k: int :: a == b + Turns(k)
  }

  lemma TurnsAdd(j: int, k: int)
    ensures Turns(j) + Turns(k) == Turns(j + k) && Turns(1) == 360.0 && Turns(0) == 0.0 && Turns(-j) == -Turns(j)
  {
    assert (j + k) as real == j as real + k as real;
  }

  lemma {:induction false} WrapDownTurns(a: real) returns (k: nat)
    ensures WrapDown(a) == a - Turns(k) && WrapDown(a) <= 180.0
    ensures a > 180.0 ==> WrapDown(a) > -180.0
    ensures a <= 180.0 ==> k == 0
    decreases if a > 180.0 then a.Floor else 0
  {
    k := 0;
    TurnsAdd(0, 0);
    if a > 180.0 {
      k := WrapDownTurns(a - 360.0);
      TurnsAdd(k, 1);
      k := k + 1;
    }
  }

  lemma {:induction false} WrapUpTurns(a: real) returns (k: nat)
    ensures WrapUp(a) == a + Turns(k) && WrapUp(a) >= -180.0
    ensures a < -180.0 ==> WrapUp(a) < 180.0
    ensures a >= -180.0 ==> k == 0
    decreases if a < -180.0 then (-a).Floor else 0
  {
    k := 0;
    TurnsAdd(0, 0);
    if a < -180.0 {
      k := WrapUpTurns(a + 360.0);
      TurnsAdd(k, 1);
      k := k + 1;
    }
  }

  /** Wrapping lands in [-180, 180] and changes the angle by whole turns only. */
  lemma WrapContract(a: real)
    ensures -180.0 <= Wrap(a) <= 180.0 && SameDirection(Wrap(a), a)
    ensures -180.0 <= a <= 180.0 ==> Wrap(a) == a
  {
    var j: int := WrapDownTurns(a);
    var k: int := WrapUpTurns(WrapDown(a));
    TurnsAdd(-j, k);
    TurnsAdd(j, 0);
    assert Wrap(a) == a + Turns(k - j);
  }

  lemma TurnsApart(n: int)
    ensures n >= 1 ==> Turns(n) >= 360.0
  {
    if n >= 1 { assert n as real >= 1.0; }
  }

  /** Inside the open interval the wrapped angle is determined by its direction. */
  lemma WrapUnique(a: real, r: real)
    requires SameDirection(r, a) && -180.0 < r < 180.0
    ensures Wrap(a) == r
  {
    WrapContract(a);
    var j: int :| r == a + Turns(j);
    var k: int :| Wrap(a) == a + Turns(k);
    TurnsAdd(j, -k);
    TurnsAdd(k, 0);
    assert Turns(j - k) == r - Wrap(a);
    if j - k >= 1 {
      TurnsApart(j - k);
    } else if j - k <= -1 {
      TurnsApart(k - j);
      TurnsAdd(j - k, 0);
    } else {
      TurnsAdd(0, 0);
    }
  }

  method WrapAngleDeg(angle: real) returns (r: real)
    ensures r == Wrap(angle)
  {
    r := angle;
    while r > 180.0
      invariant WrapDown(r) == WrapDown(angle)
      decreases r.Floor
    {
      r := r - 360.0;
    }
    while r < -180.0
      invariant WrapUp(r) == Wrap(angle)
      decreases (-r).Floor
    {
      r := r + 360.0;
    }
  }

  function Alpha(dt: real): real {
    Clamp(dt * 1.5, 0.001, 0.03)
  }

  /** The signed angle from the yaw estimate to the magnetic heading. */
  function HeadingError(heading: real, yaw: real): real {
    Wrap(Wrap(heading) - yaw)
  }

  function CorrectedYaw(yaw: real, heading: real, dt: real): real {
    if dt <= 0.0 then yaw else Wrap(yaw + Portion(HeadingError(heading, yaw), Alpha(dt)))
  }

  /** Moving the yaw by c towards a heading e away leaves e - c. */
  lemma AcrossTheSeam(h: real, yaw: real, e: real, c: real)
    requires SameDirection(e, h - yaw) && -180.0 < e - c < 180.0
    ensures Wrap(h - Wrap(yaw + c)) == e - c
  {
    WrapContract(yaw + c);
    var j: int :| e == (h - yaw) + Turns(j);
    var k: int :| Wrap(yaw + c) == (yaw + c) + Turns(k);
    TurnsAdd(j, k);
    assert e - c == (h - Wrap(yaw + c)) + Turns(j + k);
    WrapUnique(h - Wrap(yaw + c), e - c);
  }

  lemma ShrinkBound(e: real, alpha: real)
    requires -180.0 <= e <= 180.0 && 0.0 < alpha < 1.0
    ensures -180.0 < Portion(e, 1.0 - alpha) < 180.0
    ensures Portion(e, 1.0 - alpha) == e - Portion(e, alpha)
  {
    Signs(180.0 - e, 1.0 - alpha);
    Signs(180.0 + e, 1.0 - alpha);
    assert (180.0 - e) * (1.0 - alpha) == 180.0 - 180.0 * alpha - (1.0 - alpha) * e;
    assert (180.0 + e) * (1.0 - alpha) == 180.0 - 180.0 * alpha + (1.0 - alpha) * e;
  }

  /** One magnetometer correction removes exactly the fraction alpha of the heading error,
      across the seam at 180 degrees too. */
  lemma CorrectionShrinksError(yaw: real, heading: real, dt: real)
    requires dt > 0.0
    ensures 0.001 <= Alpha(dt) <= 0.03
    ensures HeadingError(heading, CorrectedYaw(yaw, heading, dt))
         == Portion(HeadingError(heading, yaw), 1.0 - Alpha(dt))
    ensures -180.0 <= CorrectedYaw(yaw, heading, dt) <= 180.0
  {
    var h, e, alpha := Wrap(heading), HeadingError(heading, yaw), Alpha(dt);
    WrapContract(h - yaw);
    var c := Portion(e, alpha);
    WrapContract(yaw + c);
    ShrinkBound(e, alpha);
    AcrossTheSeam(h, yaw, e, c);
  }

  /** One and a half times the elapsed seconds is the fraction removed, from two thirds of a millisecond to 20 ms; in
      less time it is a thousandth, in more three hundredths, and without time nothing. */
  lemma CorrectionPace(yaw: real, heading: real, dt: real)
    ensures dt <= 0.0 ==> CorrectedYaw(yaw, heading, dt) == yaw
    ensures 0.001 <= 1.5 * dt <= 0.03 ==>
      HeadingError(heading, CorrectedYaw(yaw, heading, dt)) == Portion(HeadingError(heading, yaw), 1.0 - 1.5 * dt)
    ensures 0.0 < 1.5 * dt <= 0.001 ==>
      HeadingError(heading, CorrectedYaw(yaw, heading, dt)) == Portion(HeadingError(heading, yaw), 0.999)
    ensures 1.5 * dt >= 0.03 ==>
      HeadingError(heading, CorrectedYaw(yaw, heading, dt)) == Portion(HeadingError(heading, yaw), 0.97)
  {
    hide HeadingError, Portion;
    if dt > 0.0 {
      hide CorrectedYaw;
      CorrectionShrinksError(yaw, heading, dt);
    }
  }

  /** Successive corrections towards a steady heading. */
  function CorrectedYaws(yaw: real, heading: real, dts: seq<real>): real
    decreases |dts|
  {
    if dts == [] then yaw else CorrectedYaws(CorrectedYaw(yaw, heading, dts[0]), heading, dts[1..])
  }

  function Remaining(dts: seq<real>): real
    decreases |dts|
  {
    if dts == [] then 1.0 else Portion(1.0 - Alpha(dts[0]), Remaining(dts[1..]))
  }

  function Power(x: real, n: nat): real {
    if n == 0 then 1.0 else Portion(x, Power(x, n - 1))
  }

  lemma FactorOut(f: real, rest: real, e: real, power: real)
    ensures Portion(Portion(e, f), rest) == Portion(e, Portion(f, rest))
    ensures 0.0 < f <= 0.999 && 0.0 < rest <= power ==> 0.0 < Portion(f, rest) <= Portion(0.999, power)
  {
    Signs(f, rest);
    Signs(0.999 - f, rest);
    Signs(0.999, power - rest);
    assert 0.999 * power - f * rest == 0.999 * (power - rest) + (0.999 - f) * rest;
  }

  /** The error of a run is the initial error times the product of the factors, so it dies out at
      least as fast as the powers of 0.999. */
  lemma {:induction false} ErrorDiesOut(yaw: real, heading: real, dts: seq<real>)
    requires forall i :: 0 <= i < |dts| ==> dts[i] > 0.0
    ensures HeadingError(heading, CorrectedYaws(yaw, heading, dts))
         == Portion(HeadingError(heading, yaw), Remaining(dts))
    ensures 0.0 < Remaining(dts) <= Power(0.999, |dts|)
    decreases |dts|
  {
    if dts == [] {
      assert Portion(HeadingError(heading, yaw), 1.0) == HeadingError(heading, yaw);
    } else {
      var next := CorrectedYaw(yaw, heading, dts[0]);
      CorrectionShrinksError(yaw, heading, dts[0]);
      ErrorDiesOut(next, heading, dts[1..]);
      FactorOut(1.0 - Alpha(dts[0]), Remaining(dts[1..]), HeadingError(heading, yaw), Power(0.999, |dts| - 1));
    }
  }

  // ---------- The estimator object ----------

  datatype AttitudeState = AttitudeState(
    rollDeg: real, pitchDeg: real, yawDeg: real,
    rollRateDps: real, pitchRateDps: real, yawRateDps: real)

  /** A filter that never divides by zero. */
  type ProperFilter = f: Filter | Covariance(f.p) witness INITIAL

  function Filtered(f: ProperFilter, m: Measurement): ProperFilter
    requires m.dt >= 0.0
  {
    PredictKeepsCovariance(f.p, m.dt);
    CorrectKeepsCovariance(Predict(f.p, m.dt));
    Corrected(Predicted(f, m.rate, m.dt), m.angle)
  }

  /** Where the angle is expected after dt at this reading of a gyro with this bias. */
  function Expected(f: Filter, m: Measurement): real { f.angle + m.dt * (m.rate - f.bias) }

  lemma NothingToCorrect(x: real, k: real)
    ensures x + k * (x - x) == x && x + k * 0.0 == x
  {
  }

  /** A gyro that reads the true speed plus the bias, and an angle that has moved by just that speed, tell the filter
      nothing new: it has the angle, and keeps the bias. */
  lemma TrueSpeedIsFollowed(f: ProperFilter, speed: real, dt: real)
    requires dt >= 0.0
    ensures (var g := Filtered(f, Measurement(f.angle + dt * speed, speed + f.bias, dt));
      g.angle == f.angle + dt * speed && g.bias == f.bias)
  {
    PredictKeepsCovariance(f.p, dt);
    CorrectKeepsCovariance(Predict(f.p, dt));
    var p := Predict(f.p, dt);
    NothingToCorrect(f.angle + dt * speed, p.a / (p.a + R_MEASURE));
    NothingToCorrect(f.bias, p.c / (p.a + R_MEASURE));
  }

  ghost predicate AllForward(ms: seq<Measurement>) {
    forall m :: m in ms ==> m.dt > 0.0
  }

  lemma CrossStaysNegative(p: Mat, dt: real)
    requires Covariance(p) && p.b <= 0.0 && dt > 0.0
    ensures Covariance(Predict(p, dt)) && Predict(p, dt).b < 0.0 && Correct(Predict(p, dt)).b < 0.0
  {
    PredictWritten(p, dt);
    PredictKeepsCovariance(p, dt);
    Signs(dt, p.d);
    var n := Predict(p, dt);
    var w, k1 := CorrectShrinks(n);
    Signs(n.b, w);
  }

  lemma {:induction false} CrossNeverPositive(f: Filter, ms: seq<Measurement>)
    requires Covariance(f.p) && f.p.b <= 0.0 && AllForward(ms)
    ensures Run(f, ms).p.b <= 0.0
    decreases |ms|
  {
    if ms != [] {
      assert ms[0] in ms;
      PredictKeepsCovariance(f.p, ms[0].dt);
      CorrectKeepsCovariance(Predict(f.p, ms[0].dt));
      CrossStaysNegative(f.p, ms[0].dt);
      CrossNeverPositive(Corrected(Predicted(f, ms[0].rate, ms[0].dt), ms[0].angle), ms[1..]);
    }
  }

  lemma MovesAgainst(k: real, z: real)
    requires k < 0.0
    ensures (k * z < 0.0 <==> z > 0.0) && (k * z > 0.0 <==> z < 0.0)
  {
  }

  lemma GainHasSign(c: real, s: real)
    requires s > 0.0 && c < 0.0
    ensures c / s < 0.0
  {
    Cancel(c, 0.0, s);
    Signs(c / s, s);
  }

  lemma BiasMovesAgainst(f: Filter, angle: real)
    requires Covariance(f.p) && f.p.b < 0.0
    ensures f.p.a + R_MEASURE > 0.0
    ensures (var g := Corrected(f, angle);
      (angle > f.angle <==> g.bias < f.bias) && (angle < f.angle <==> g.bias > f.bias))
  {
    GainHasSign(f.p.c, f.p.a + R_MEASURE);
    MovesAgainst(f.p.c / (f.p.a + R_MEASURE), angle - f.angle);
  }

  lemma FilteredParts(f: ProperFilter, m: Measurement)
    requires m.dt >= 0.0
    ensures (var n := Predicted(f, m.rate, m.dt);
      && n.angle == Expected(f, m) && n.bias == f.bias && n.p == Predict(f.p, m.dt)
      && Covariance(n.p) && n.p.a + R_MEASURE > 0.0 && Filtered(f, m) == Corrected(n, m.angle))
  {
    hide Corrected, Predict;
    PredictKeepsCovariance(f.p, m.dt);
  }

  /** The filter takes the blame for what it does not expect. */
  ghost predicate Blames(f: Filter, m: Measurement, g: Filter) {
    && (m.angle > Expected(f, m) <==> g.bias < f.bias) && (m.angle < Expected(f, m) <==> g.bias > f.bias)
    && Between(Expected(f, m), m.angle, g.angle)
  }

  lemma OneStepBlames(f: ProperFilter, m: Measurement)
    requires f.p.b <= 0.0 && m.dt > 0.0
    ensures Blames(f, m, Filtered(f, m))
  {
    hide Predict, Correct, Corrected, Covariance, Between, Expected, Predicted, Filtered;
    CrossStaysNegative(f.p, m.dt);
    FilteredParts(f, m);
    var predicted := Predicted(f, m.rate, m.dt);
    CorrectionLiesBetween(predicted, m.angle);
    BiasMovesAgainst(predicted, m.angle);
  }

  /** In every run from power-on in which time goes forward, a frame found further than expected makes the filter
      believe in less bias, and one found less far in more: what it did not expect it takes for speed that was wrongly
      taken off the gyro. And the angle moves toward the measurement. */
  lemma BiasTakesTheBlame(ms: seq<Measurement>, m: Measurement)
    requires AllForward(ms) && m.dt > 0.0
    ensures Blames(Run(INITIAL, ms), m, Filtered(Run(INITIAL, ms), m))
  {
    assert AllProper(ms);
    hide Run, Filtered, Blames, AllForward, AllProper;
    CrossNeverPositive(INITIAL, ms);
    OneStepBlames(Run(INITIAL, ms), m);
  }

  /** Both filters, and what was last reported. */
  datatype Estimates = Estimates(roll: ProperFilter, pitch: ProperFilter, last: AttitudeState)

  /** What one set of samples does; accelerometer angles and bias-free rates are arbitrary values. */
  function Updated(
      e: Estimates, rollAcc: real, pitchAcc: real, rollRate: real, pitchRate: real, yawRate: real, dt: real): Estimates
    requires dt >= 0.0
  {
    var roll := Filtered(e.roll, Measurement(rollAcc, rollRate, dt));
    var pitch := Filtered(e.pitch, Measurement(pitchAcc, pitchRate, dt));
    Estimates(roll, pitch, AttitudeState(roll.angle, pitch.angle, e.last.yawDeg + yawRate * dt,
                                         rollRate, pitchRate, yawRate))
  }

  /** Gyros that read the true speeds plus what their filters hold for the bias, and a frame that has turned by just
      these speeds: it is reported as it is, on every axis, and what the filters hold stays. */
  lemma TurningIsFollowed(e: Estimates, rollSpeed: real, pitchSpeed: real, yawSpeed: real, dt: real)
    requires dt >= 0.0
    ensures (var roll, pitch := e.roll.angle + dt * rollSpeed, e.pitch.angle + dt * pitchSpeed;
      var n := Updated(e, roll, pitch, rollSpeed + e.roll.bias, pitchSpeed + e.pitch.bias, yawSpeed, dt);
      && n.last == AttitudeState(roll, pitch, e.last.yawDeg + yawSpeed * dt,
                                 rollSpeed + e.roll.bias, pitchSpeed + e.pitch.bias, yawSpeed)
      && n.roll.angle == roll && n.roll.bias == e.roll.bias && n.pitch.angle == pitch && n.pitch.bias == e.pitch.bias)
  {
    hide Filtered;
    TrueSpeedIsFollowed(e.roll, rollSpeed, dt);
    TrueSpeedIsFollowed(e.pitch, pitchSpeed, dt);
  }

  function YawCorrected(e: Estimates, heading: real, dt: real): Estimates {
    e.(last := e.last.(yawDeg := CorrectedYaw(e.last.yawDeg, heading, dt)))
  }

  class AttitudeEstimator {
    const rollFilter: AxisKalman
    const pitchFilter: AxisKalman
    var lastState: AttitudeState

    ghost predicate Valid()
      reads this, rollFilter, pitchFilter
    {
      rollFilter != pitchFilter && Covariance(rollFilter.Value().p) && Covariance(pitchFilter.Value().p)
    }

    ghost function Value(): Estimates
      requires Valid()
      reads this, rollFilter, pitchFilter
    {
      Estimates(rollFilter.Value(), pitchFilter.Value(), lastState)
    }

    constructor ()
      ensures Valid() && fresh(rollFilter) && fresh(pitchFilter)
      ensures Value() == Estimates(INITIAL, INITIAL, AttitudeState(0.0, 0.0, 0.0, 0.0, 0.0, 0.0))
    {
      rollFilter := new AxisKalman();
      pitchFilter := new AxisKalman();
      lastState := AttitudeState(0.0, 0.0, 0.0, 0.0, 0.0, 0.0);
    }

    /** Accelerometer angles and bias-free rates come in as arbitrary values. */
    method Update(rollAcc: real, pitchAcc: real, rollRate: real, pitchRate: real, yawRate: real, dtS: real)
      returns (r: AttitudeState)
      requires Valid() && dtS >= 0.0
      modifies this, rollFilter, pitchFilter
      ensures Valid() && r == lastState
      ensures Value() == Updated(old(Value()), rollAcc, pitchAcc, rollRate, pitchRate, yawRate, dtS)
      ensures r == AttitudeState(rollFilter.angleDeg, pitchFilter.angleDeg,
                                 old(lastState).yawDeg + yawRate * dtS, rollRate, pitchRate, yawRate)
      ensures var f := Predicted(old(rollFilter.Value()), rollRate, dtS);
              f.p.a + R_MEASURE > 0.0 && rollFilter.Value() == Corrected(f, rollAcc)
      ensures var f := Predicted(old(pitchFilter.Value()), pitchRate, dtS);
              f.p.a + R_MEASURE > 0.0 && pitchFilter.Value() == Corrected(f, pitchAcc)
    {
      var roll := rollFilter.Update(rollAcc, rollRate, dtS);
      var pitch := pitchFilter.Update(pitchAcc, pitchRate, dtS);
      lastState := AttitudeState(roll, pitch, lastState.yawDeg + yawRate * dtS, rollRate, pitchRate, yawRate);
      r := lastState;
    }

    /** The magnetic heading comes in as an arbitrary value. */
    method CorrectYawFromMag(rawHeadingDeg: real, dtS: real) returns (r: AttitudeState)
      modifies this`lastState
      ensures old(Valid()) ==> Valid() && Value() == YawCorrected(old(Value()), rawHeadingDeg, dtS)
      ensures r == lastState == old(lastState).(yawDeg := CorrectedYaw(old(lastState).yawDeg, rawHeadingDeg, dtS))
    {
      if dtS <= 0.0 {
        return lastState;
      }
      var headingDeg := WrapAngleDeg(rawHeadingDeg);
      var error := WrapAngleDeg(headingDeg - lastState.yawDeg);
      var correctionAlpha := Alpha(dtS);
      var yaw := WrapAngleDeg(lastState.yawDeg + Portion(error, correctionAlpha));
      lastState := lastState.(yawDeg := yaw);
      r := lastState;
    }
  }
}
