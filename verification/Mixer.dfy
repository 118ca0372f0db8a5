/** The numbers of the bring-up loop: from stick positions and body rates to four motor pulses,
    in microseconds. */
module Mixer {
  import opened Numbers

  const IDLE_US := 1000
  const PWM_MAX_US := 2000
  const TEST_MAX_US := 1500
  const ACTIVE_MIN_US := 1250
  const KILL_US := 1350
  const ARM_MAX_US := 1100
  const MIN_SPIN_APPLY_US := 1010
  const TRIM_LIMIT_US := 50

  const STICK_MID_US := 1500
  const STICK_SPAN_US := 500
  const ANGLE_SPAN_CD := 2000
  const ROLL_RATE_SPAN := 600
  const PITCH_RATE_SPAN := 600
  const YAW_RATE_SPAN := 500
  const TORQUE_MAX_US := 40
  const ASSIST_MAX_US := 25

  /** One value a motor, in microseconds: left front, right front, right rear, left rear. */
  datatype Quad = Quad(lf: int, rf: int, rr: int, lb: int) {
    function At(motor: nat): int
      requires motor < 4
    {
      if motor == 0 then lf else if motor == 1 then rf else if motor == 2 then rr else lb
    }
  }

  const ALL_IDLE := Quad(1000, 1000, 1000, 1000)
  const MIN_SPIN_US := Quad(1220, 1235, 1220, 1220)
  const TRIM_US := Quad(10, 0, 0, 10)

  /** The five channels the loop reads out of a frame. */
  datatype Sticks = Sticks(roll: U16, pitch: U16, throttle: U16, yaw: U16, arm: U16)

  /** What the loop believes the pilot wants. */
  datatype Rc = Rc(valid: bool, roll: U16, pitch: U16, throttle: U16, yaw: U16, armSwitch: bool)

  /** Angles are differences of two headings in centidegrees, rates are 16-bit samples less a bias. */
  type Angle = a: int | -36000 <= a <= 36000
  type Rate = r: int | -65535 <= r <= 65535

  datatype Body = Body(
    ready: bool, attOk: bool, roll: Angle, pitch: Angle, rollRate: Rate, pitchRate: Rate, yawRate: Rate)

  datatype Tuning = Tuning(
    deadzone: int, rollDiv: int, pitchDiv: int, yawDiv: int, angleDiv: int, slotSeq: nat, updateSeq: nat)

  datatype Setpoint = Setpoint(
    roll: int, pitch: int, rollRate: int, pitchRate: int, yawRate: int, throttle: int)

  datatype Torque = Torque(roll: int, pitch: int, yaw: int)

  const NO_TORQUE := Torque(0, 0, 0)

  predicate Tuned(t: Tuning) {
    && 5 <= t.deadzone <= 80
    && 8 <= t.rollDiv <= 80 && 8 <= t.pitchDiv <= 80 && 8 <= t.yawDiv <= 80
    && 100 <= t.angleDiv <= 1200
  }

  /** How many times b goes into a. */
  function Times(a: nat, b: int): nat
    requires b > 0
  {
    if a < b then 0
    else
      var rest: int := a - b;
      1 + Times(rest, b)
  }

  /** Integer division as C does it, toward zero. */
  function Quotient(a: int, b: int): int
    requires b > 0
  {
    if a >= 0 then Times(a, b) else 0 - Times(-a, b)
  }

  lemma ProductAtLeast(k: int, b: int)
    requires b > 0
    ensures k >= 1 ==> k * b >= b
  {
  }

  lemma OneMore(a: nat, b: int)
    requires b > 0
    ensures (a + b) / b == a / b + 1
  {
    var q, r := (a + b) / b, (a + b) % b;
    var q', r' := a / b, a % b;
    assert (q - q' - 1) * b == r' - r;
    ProductAtLeast(q - q' - 1, b);
    ProductAtLeast(q' + 1 - q, b);
    assert (q' + 1 - q) * b == r - r';
  }

  lemma {:induction false} TimesIsDivision(a: nat, b: int)
    requires b > 0
    ensures Times(a, b) == a / b
  {
    if a >= b {
      TimesIsDivision(a - b, b);
      assert a == (a - b) + 1 * b;
      OneMore(a - b, b);
    }
  }

  lemma {:induction false} TimesMonotone(a: nat, a': nat, b: int)
    requires b > 0 && a <= a'
    ensures Times(a, b) <= Times(a', b)
  {
    if a >= b {
      TimesMonotone(a - b, a' - b, b);
    }
  }

  function Max(a: int, b: int): int { if a < b then b else a }

  lemma QuotientMonotone(a: int, a': int, b: int)
    requires b > 0 && a <= a'
    ensures Quotient(a, b) <= Quotient(a', b)
  {
    if a >= 0 {
      TimesMonotone(a, a', b);
    } else if a' < 0 {
      TimesMonotone(-a', -a, b);
    }
  }

  // ---------- Sticks to setpoints ----------

  function Deflection(us: int, deadzone: int): int {
    var d := us - STICK_MID_US;
    if -deadzone < d < deadzone then 0 else Limit(d, -STICK_SPAN_US, STICK_SPAN_US)
  }

  function Scaled(deflection: int, span: int): int {
    Quotient(deflection * span, STICK_SPAN_US)
  }

  /** Pitch is reversed: pulling the stick raises the nose. */
  function SetpointFor(rc: Rc, deadzone: int): Setpoint {
    if !rc.valid then Setpoint(0, 0, 0, 0, 0, IDLE_US)
    else
      var roll, pitch, yaw :=
        Deflection(rc.roll, deadzone), -Deflection(rc.pitch, deadzone), Deflection(rc.yaw, deadzone);
      Setpoint(Scaled(roll, ANGLE_SPAN_CD), Scaled(pitch, ANGLE_SPAN_CD),
               Scaled(roll, ROLL_RATE_SPAN), Scaled(pitch, PITCH_RATE_SPAN), Scaled(yaw, YAW_RATE_SPAN),
               rc.throttle)
  }

  lemma DeflectionMap(us: U16, other: U16, deadzone: int)
    requires 5 <= deadzone <= 80
    ensures Deflection(us, deadzone) == 0 <==> -deadzone < us - STICK_MID_US < deadzone
    ensures -STICK_SPAN_US <= Deflection(us, deadzone) <= STICK_SPAN_US
    ensures us >= 2000 ==> Deflection(us, deadzone) == STICK_SPAN_US
    ensures us <= 1000 ==> Deflection(us, deadzone) == -STICK_SPAN_US
    ensures us <= other ==> Deflection(us, deadzone) <= Deflection(other, deadzone)
  {
  }

  lemma ScaledMap(d: int, d': int, span: int)
    requires -STICK_SPAN_US <= d <= STICK_SPAN_US && -STICK_SPAN_US <= d' <= STICK_SPAN_US
    requires span == ROLL_RATE_SPAN || span == YAW_RATE_SPAN
    ensures Scaled(d, span) == 0 <==> d == 0
    ensures -span <= Scaled(d, span) <= span
    ensures d == STICK_SPAN_US ==> Scaled(d, span) == span
    ensures d == -STICK_SPAN_US ==> Scaled(d, span) == -span
    ensures d <= d' ==> Scaled(d, span) <= Scaled(d', span)
  {
    if d <= d' {
      QuotientMonotone(d * span, d' * span, STICK_SPAN_US);
    }
    if d >= 0 {
      TimesIsDivision(d * span, STICK_SPAN_US);
    } else {
      TimesIsDivision(-d * span, STICK_SPAN_US);
    }
  }

  /** The self-levelling assist works on an axis exactly while its stick rests in the deadzone; full stick
      asks for the full rate, more stick never asks for less, and in between the rate is in proportion. */
  lemma StickMap(us: U16, other: U16, deadzone: int, span: int)
    requires 5 <= deadzone <= 80 && (span == ROLL_RATE_SPAN || span == YAW_RATE_SPAN)
    ensures Scaled(Deflection(us, deadzone), span) == 0 <==> -deadzone < us - STICK_MID_US < deadzone
    ensures -span <= Scaled(Deflection(us, deadzone), span) <= span
    ensures us >= 2000 ==> Scaled(Deflection(us, deadzone), span) == span
    ensures us <= 1000 ==> Scaled(Deflection(us, deadzone), span) == -span
    ensures us <= other ==> Scaled(Deflection(us, deadzone), span) <= Scaled(Deflection(other, deadzone), span)
    ensures 1500 + deadzone <= us <= 2000 ==> Scaled(Deflection(us, deadzone), span) == (us - 1500) * span / 500
    ensures 1000 <= us <= 1500 - deadzone ==> Scaled(Deflection(us, deadzone), span) == -((1500 - us) * span / 500)
  {
    DeflectionMap(us, other, deadzone);
    if 1500 + deadzone <= us <= 2000 {
      TimesIsDivision((us - 1500) * span, 500);
    } else if 1000 <= us <= 1500 - deadzone {
      TimesIsDivision((1500 - us) * span, 500);
      assert Deflection(us, deadzone) * span == -((1500 - us) * span);
    }
    ScaledMap(Deflection(us, deadzone), Deflection(other, deadzone), span);
  }

  lemma ScaledByFour(d: int)
    ensures Scaled(d, ANGLE_SPAN_CD) == 4 * d
  {
    TimesIsDivision(if d >= 0 then d * ANGLE_SPAN_CD else -d * ANGLE_SPAN_CD, STICK_SPAN_US);
  }

  /** The angles asked for by the sticks: 4 centidegrees for each microsecond off the middle, against the stick in
      pitch; without a radio nothing is asked for and the throttle is at rest. */
  lemma AnglesAskedFor(rc: Rc, deadzone: int)
    requires 5 <= deadzone <= 80
    ensures (var sp := SetpointFor(rc, deadzone);
      && (!rc.valid ==> sp == Setpoint(0, 0, 0, 0, 0, 1000))
      && (rc.valid ==> sp.throttle == rc.throttle)
      && (rc.valid && 1000 <= rc.roll <= 2000 ==>
           sp.roll == if -deadzone < rc.roll - 1500 < deadzone then 0 else 4 * (rc.roll - 1500))
      && (rc.valid && 1000 <= rc.pitch <= 2000 ==>
           sp.pitch == if -deadzone < rc.pitch - 1500 < deadzone then 0 else -4 * (rc.pitch - 1500))
      && -2000 <= sp.roll <= 2000 && -2000 <= sp.pitch <= 2000)
  {
    ScaledByFour(Deflection(rc.roll, deadzone));
    ScaledByFour(-Deflection(rc.pitch, deadzone));
  }

  // ---------- Setpoints to torques ----------

  function Correction(error: int, div: int, limit: int): int
    requires div > 0 && limit >= 0
  {
    Limit(Quotient(error, div), -limit, limit)
  }

  /** Rate feedback on one axis, plus the assist toward level when the pilot asks for no rotation. */
  function Leveled(wanted: int, rate: int, rateDiv: int, angle: int, angleDiv: int): int
    requires rateDiv > 0 && angleDiv > 0
  {
    var assist := if wanted == 0 then Correction(-angle, angleDiv, ASSIST_MAX_US) else 0;
    Limit(Correction(wanted - rate, rateDiv, TORQUE_MAX_US) + assist, -TORQUE_MAX_US, TORQUE_MAX_US)
  }

  function TorqueFor(sp: Setpoint, body: Body, t: Tuning): Torque
    requires Tuned(t)
  {
    Torque(Leveled(sp.rollRate, body.rollRate, t.rollDiv, body.roll, t.angleDiv),
           Leveled(sp.pitchRate, body.pitchRate, t.pitchDiv, body.pitch, t.angleDiv),
           Correction(sp.yawRate - body.yawRate, t.yawDiv, TORQUE_MAX_US))
  }

  predicate Small(torque: Torque) {
    && -TORQUE_MAX_US <= torque.roll <= TORQUE_MAX_US
    && -TORQUE_MAX_US <= torque.pitch <= TORQUE_MAX_US
    && -TORQUE_MAX_US <= torque.yaw <= TORQUE_MAX_US
  }

  lemma TorqueIsSmall(sp: Setpoint, body: Body, t: Tuning)
    requires Tuned(t)
    ensures Small(TorqueFor(sp, body, t))
  {
  }

  /** The feedback is negative on every axis: turning faster, or leaning further, never raises the torque,
      and without any error there is none. */
  lemma FeedbackOpposes(wanted: int, rate: int, rate': int, rateDiv: int, angle: int, angle': int, angleDiv: int)
    requires rateDiv > 0 && angleDiv > 0
    ensures (rate <= rate' && angle <= angle' ==>
      Leveled(wanted, rate, rateDiv, angle, angleDiv) >= Leveled(wanted, rate', rateDiv, angle', angleDiv))
    ensures Leveled(wanted, wanted, rateDiv, 0, angleDiv) == 0
  {
    if rate <= rate' && angle <= angle' {
      QuotientMonotone(wanted - rate', wanted - rate, rateDiv);
      QuotientMonotone(-angle', -angle, angleDiv);
    }
  }

  lemma {:induction false} TimesAntitone(a: nat, b: int, b': int)
    requires 0 < b <= b'
    ensures Times(a, b) >= Times(a, b')
  {
    if a >= b' {
      TimesAntitone(a - b', b, b');
      TimesMonotone(a - b', a - b, b);
    }
  }

  /** A correction has the direction of its error, and its size is one unit for every div units of error, up to the
      limit. */
  lemma CorrectionExactly(error: int, div: int, limit: nat)
    requires div > 0
    ensures Abs(Correction(error, div, limit)) == if Abs(error) / div > limit then limit else Abs(error) / div
    ensures error >= 0 ==> Correction(error, div, limit) >= 0
    ensures error <= 0 ==> Correction(error, div, limit) <= 0
  {
    TimesIsDivision(Abs(error), div);
  }

  /** A smaller divider never corrects less. */
  lemma SmallerDivCorrectsMore(error: int, div: int, div': int, limit: nat)
    requires 0 < div <= div'
    ensures Abs(Correction(error, div, limit)) >= Abs(Correction(error, div', limit))
  {
    TimesAntitone(Abs(error), div, div');
  }

  // ---------- Torques to pulses ----------

  /** The collective never idles between the idle pulse and the slowest one that spins. */
  function ActiveThrottle(us: int): int {
    if IDLE_US < us < ACTIVE_MIN_US then ACTIVE_MIN_US else if us > TEST_MAX_US then TEST_MAX_US else us
  }

  /** An X frame. */
  function RawMix(collective: int, q: Torque): Quad {
    Quad(collective + q.pitch + q.roll - q.yaw, collective + q.pitch - q.roll + q.yaw,
         collective - q.pitch - q.roll - q.yaw, collective - q.pitch + q.roll + q.yaw)
  }

  function Tested(us: int): (r: int)
    ensures IDLE_US <= r <= TEST_MAX_US && (IDLE_US <= us <= TEST_MAX_US ==> r == us)
  {
    Limit(us, IDLE_US, TEST_MAX_US)
  }

  function Mix(collective: int, q: Torque): Quad {
    var raw := RawMix(Tested(collective), q);
    Quad(Tested(raw.lf), Tested(raw.rf), Tested(raw.rr), Tested(raw.lb))
  }

  function Trimmed(motor: nat, us: int, throttle: int): (r: int)
    requires motor < 4
    ensures IDLE_US <= r <= TEST_MAX_US
  {
    var trimmed := us + TRIM_US.At(motor);
    Tested(if throttle >= MIN_SPIN_APPLY_US then Max(trimmed, MIN_SPIN_US.At(motor)) else trimmed)
  }

  function AllTrimmed(mix: Quad, throttle: int): Quad {
    Quad(Trimmed(0, mix.lf, throttle), Trimmed(1, mix.rf, throttle),
         Trimmed(2, mix.rr, throttle), Trimmed(3, mix.lb, throttle))
  }

  /** The pulses for a throttle and three torques. */
  function Shaped(throttle: int, q: Torque): Quad {
    AllTrimmed(Mix(ActiveThrottle(throttle), q), ActiveThrottle(throttle))
  }

  /** The torque of one poll: none without a fresh attitude. */
  function TorqueNow(rc: Rc, body: Body, t: Tuning): (q: Torque)
    requires Tuned(t)
    ensures Small(q)
  {
    TorqueIsSmall(SetpointFor(rc, t.deadzone), body, t);
    if rc.valid && body.ready && body.attOk then TorqueFor(SetpointFor(rc, t.deadzone), body, t) else NO_TORQUE
  }

  /** The mix and the four pulses of a poll whose outputs are enabled. */
  function MixNow(rc: Rc, body: Body, t: Tuning): Quad
    requires Tuned(t)
  {
    Mix(ActiveThrottle(rc.throttle), TorqueNow(rc, body, t))
  }

  function PulsesNow(rc: Rc, body: Body, t: Tuning): Quad
    requires Tuned(t)
  {
    Shaped(rc.throttle, TorqueNow(rc, body, t))
  }

  lemma SetpointsAreSeparate(rc: Rc, rc': Rc, deadzone: int)
    requires rc'.valid == rc.valid
    ensures rc'.roll == rc.roll ==> SetpointFor(rc', deadzone).rollRate == SetpointFor(rc, deadzone).rollRate
    ensures rc'.pitch == rc.pitch ==> SetpointFor(rc', deadzone).pitchRate == SetpointFor(rc, deadzone).pitchRate
    ensures rc'.yaw == rc.yaw ==> SetpointFor(rc', deadzone).yawRate == SetpointFor(rc, deadzone).yawRate
  {
  }

  lemma TorquesAreSeparate(sp: Setpoint, sp': Setpoint, body: Body, body': Body, t: Tuning)
    requires Tuned(t)
    ensures (sp'.rollRate == sp.rollRate && body'.roll == body.roll && body'.rollRate == body.rollRate ==>
      TorqueFor(sp', body', t).roll == TorqueFor(sp, body, t).roll)
    ensures (sp'.pitchRate == sp.pitchRate && body'.pitch == body.pitch && body'.pitchRate == body.pitchRate ==>
      TorqueFor(sp', body', t).pitch == TorqueFor(sp, body, t).pitch)
    ensures (sp'.yawRate == sp.yawRate && body'.yawRate == body.yawRate ==>
      TorqueFor(sp', body', t).yaw == TorqueFor(sp, body, t).yaw)
  {
  }

  /** Each axis answers its own stick and its own measurements, and nothing else. */
  lemma AxesAreSeparate(rc: Rc, rc': Rc, body: Body, body': Body, t: Tuning)
    requires Tuned(t) && rc'.valid == rc.valid && body'.ready == body.ready && body'.attOk == body.attOk
    ensures (rc'.roll == rc.roll && body'.roll == body.roll && body'.rollRate == body.rollRate ==>
      TorqueNow(rc', body', t).roll == TorqueNow(rc, body, t).roll)
    ensures (rc'.pitch == rc.pitch && body'.pitch == body.pitch && body'.pitchRate == body.pitchRate ==>
      TorqueNow(rc', body', t).pitch == TorqueNow(rc, body, t).pitch)
    ensures (rc'.yaw == rc.yaw && body'.yawRate == body.yawRate ==>
      TorqueNow(rc', body', t).yaw == TorqueNow(rc, body, t).yaw)
  {
    SetpointsAreSeparate(rc, rc', t.deadzone);
    TorquesAreSeparate(SetpointFor(rc, t.deadzone), SetpointFor(rc', t.deadzone), body, body', t);
  }

  lemma CorrectionMonotone(error: int, error': int, div: int, limit: nat)
    requires div > 0 && error <= error'
    ensures Correction(error, div, limit) <= Correction(error', div, limit)
  {
    QuotientMonotone(error, error', div);
  }

  /** Whatever the pilot asks for, leaning further or turning faster never raises the torque on that axis. */
  lemma BodyIsOpposed(rc: Rc, body: Body, body': Body, t: Tuning)
    requires Tuned(t) && body'.ready == body.ready && body'.attOk == body.attOk
    ensures (body.roll <= body'.roll && body.rollRate <= body'.rollRate ==>
      TorqueNow(rc, body', t).roll <= TorqueNow(rc, body, t).roll)
    ensures (body.pitch <= body'.pitch && body.pitchRate <= body'.pitchRate ==>
      TorqueNow(rc, body', t).pitch <= TorqueNow(rc, body, t).pitch)
    ensures body.yawRate <= body'.yawRate ==> TorqueNow(rc, body', t).yaw <= TorqueNow(rc, body, t).yaw
  {
    hide Leveled, Correction;
    var sp := SetpointFor(rc, t.deadzone);
    FeedbackOpposes(sp.rollRate, body.rollRate, body'.rollRate, t.rollDiv, body.roll, body'.roll, t.angleDiv);
    FeedbackOpposes(sp.pitchRate, body.pitchRate, body'.pitchRate, t.pitchDiv, body.pitch, body'.pitch, t.angleDiv);
    if body.yawRate <= body'.yawRate {
      CorrectionMonotone(sp.yawRate - body'.yawRate, sp.yawRate - body.yawRate, t.yawDiv, TORQUE_MAX_US);
    }
  }

  /** The rates that the sticks ask for; pitch is reversed. */
  predicate Asks(rc: Rc, t: Tuning, roll: int, pitch: int, yaw: int) {
    && rc.valid
    && roll == Scaled(Deflection(rc.roll, t.deadzone), 600)
    && pitch == -Scaled(Deflection(rc.pitch, t.deadzone), 600)
    && yaw == Scaled(Deflection(rc.yaw, t.deadzone), 500)
  }

  lemma ReversedRate(d: int, span: int)
    requires span > 0
    ensures Scaled(-d, span) == -Scaled(d, span)
  {
    assert -d * span == -(d * span);
  }

  lemma AsksForRates(rc: Rc, t: Tuning, roll: int, pitch: int, yaw: int)
    requires Asks(rc, t, roll, pitch, yaw)
    ensures (var sp := SetpointFor(rc, t.deadzone); sp.rollRate == roll && sp.pitchRate == pitch && sp.yawRate == yaw)
  {
    ReversedRate(Deflection(rc.pitch, t.deadzone), 600);
  }

  lemma NoCorrection(div: int, limit: nat)
    requires div > 0
    ensures Correction(0, div, limit) == 0
  {
  }

  function BroughtBack(rate: int, rateDiv: int, angle: int, angleDiv: int): int
    requires rateDiv > 0 && angleDiv > 0
  {
    Limit(-Correction(rate, rateDiv, 40) - Correction(angle, angleDiv, 25), -40, 40)
  }

  lemma CorrectionOdd(error: int, div: int, limit: nat)
    requires div > 0
    ensures Correction(-error, div, limit) == -Correction(error, div, limit)
  {
  }

  lemma LeveledExactly(wanted: int, rate: int, rateDiv: int, angle: int, angleDiv: int)
    requires rateDiv > 0 && angleDiv > 0
    ensures (wanted != 0 || angle == 0 ==>
      Leveled(wanted, rate, rateDiv, angle, angleDiv) == Correction(wanted - rate, rateDiv, 40))
    ensures wanted == rate == 0 ==> Leveled(wanted, rate, rateDiv, angle, angleDiv) == Correction(-angle, angleDiv, 25)
    ensures wanted == 0 ==>
      Leveled(wanted, rate, rateDiv, angle, angleDiv) == BroughtBack(rate, rateDiv, angle, angleDiv)
  {
    NoCorrection(rateDiv, 40);
    NoCorrection(angleDiv, 25);
    CorrectionOdd(rate, rateDiv, 40);
    CorrectionOdd(angle, angleDiv, 25);
    hide Correction;
  }

  lemma TorqueParts(rc: Rc, body: Body, t: Tuning, roll: int, pitch: int, yaw: int)
    requires Tuned(t) && Asks(rc, t, roll, pitch, yaw) && body.ready && body.attOk
    ensures (TorqueNow(rc, body, t)
      == Torque(Leveled(roll, body.rollRate, t.rollDiv, body.roll, t.angleDiv),
                Leveled(pitch, body.pitchRate, t.pitchDiv, body.pitch, t.angleDiv),
                Correction(yaw - body.yawRate, t.yawDiv, 40)))
  {
    hide Correction, Leveled;
    AsksForRates(rc, t, roll, pitch, yaw);
    hide SetpointFor;
  }

  /** On a level frame, or under a stick off its middle, each axis answers the rate that is missing, by its own divider;
      under centred sticks it is braked and brought back to level. */
  lemma TorqueNowExactly(rc: Rc, body: Body, t: Tuning, roll: int, pitch: int, yaw: int)
    requires Tuned(t) && Asks(rc, t, roll, pitch, yaw) && body.ready && body.attOk
    ensures (roll != 0 || body.roll == 0 ==>
      TorqueNow(rc, body, t).roll == Correction(roll - body.rollRate, t.rollDiv, 40))
    ensures (pitch != 0 || body.pitch == 0 ==>
      TorqueNow(rc, body, t).pitch == Correction(pitch - body.pitchRate, t.pitchDiv, 40))
    ensures TorqueNow(rc, body, t).yaw == Correction(yaw - body.yawRate, t.yawDiv, 40)
    ensures roll == body.rollRate == 0 ==> TorqueNow(rc, body, t).roll == Correction(-body.roll, t.angleDiv, 25)
    ensures pitch == body.pitchRate == 0 ==> TorqueNow(rc, body, t).pitch == Correction(-body.pitch, t.angleDiv, 25)
    ensures roll == 0 ==>
      TorqueNow(rc, body, t).roll == BroughtBack(body.rollRate, t.rollDiv, body.roll, t.angleDiv)
    ensures pitch == 0 ==>
      TorqueNow(rc, body, t).pitch == BroughtBack(body.pitchRate, t.pitchDiv, body.pitch, t.angleDiv)
  {
    hide TorqueNow, SetpointFor, Correction, Leveled, Asks, BroughtBack;
    TorqueParts(rc, body, t, roll, pitch, yaw);
    LeveledExactly(roll, body.rollRate, t.rollDiv, body.roll, t.angleDiv);
    LeveledExactly(pitch, body.pitchRate, t.pitchDiv, body.pitch, t.angleDiv);
  }

  const LEVEL := Body(true, true, 0, 0, 0, 0, 0)

  lemma FullRate(rate: int, div: int)
    requires 8 <= div <= 80 && 500 <= rate <= 600
    ensures Correction(rate, div, TORQUE_MAX_US) > 0
    ensures Correction(-rate, div, TORQUE_MAX_US) < 0
    ensures Correction(0, div, TORQUE_MAX_US) == 0
  {
  }

  /** On a level frame at rest the sticks turn it as the pilot means: roll and yaw with the stick, pitch against
      it, and not at all inside the deadzone. */
  lemma SticksTurnTheFrame(rc: Rc, t: Tuning)
    requires Tuned(t) && rc.valid
    ensures (var q := TorqueNow(rc, LEVEL, t);
      && (rc.roll >= 2000 ==> q.roll > 0) && (rc.roll <= 1000 ==> q.roll < 0)
      && (rc.pitch >= 2000 ==> q.pitch < 0) && (rc.pitch <= 1000 ==> q.pitch > 0)
      && (rc.yaw >= 2000 ==> q.yaw > 0) && (rc.yaw <= 1000 ==> q.yaw < 0)
      && (rc.roll == rc.pitch == rc.yaw == STICK_MID_US ==> q == NO_TORQUE))
  {
    hide TorqueNow, Correction, Deflection, Scaled;
    StickMap(rc.roll, rc.roll, t.deadzone, ROLL_RATE_SPAN);
    StickMap(rc.pitch, rc.pitch, t.deadzone, PITCH_RATE_SPAN);
    StickMap(rc.yaw, rc.yaw, t.deadzone, YAW_RATE_SPAN);
    var roll, pitch, yaw := Scaled(Deflection(rc.roll, t.deadzone), ROLL_RATE_SPAN),
      -Scaled(Deflection(rc.pitch, t.deadzone), PITCH_RATE_SPAN), Scaled(Deflection(rc.yaw, t.deadzone), YAW_RATE_SPAN);
    TorqueNowExactly(rc, LEVEL, t, roll, pitch, yaw);
    FullRate(ROLL_RATE_SPAN, t.rollDiv);
    FullRate(PITCH_RATE_SPAN, t.pitchDiv);
    FullRate(YAW_RATE_SPAN, t.yawDiv);
  }

  /** With the throttle above idle and below the kill level no mixer limit is ever reached, so the mix can be
      undone: its sum gives the collective back and its differences give the three torques back. */
  lemma MixerNeverSaturates(throttle: int, q: Torque)
    requires IDLE_US < throttle <= KILL_US && Small(q)
    ensures ACTIVE_MIN_US <= ActiveThrottle(throttle) <= KILL_US
    ensures (var m := Mix(ActiveThrottle(throttle), q);
      && m == RawMix(ActiveThrottle(throttle), q)
      && m.lf + m.rf + m.rr + m.lb == 4 * ActiveThrottle(throttle)
      && m.lf + m.rf - m.rr - m.lb == 4 * q.pitch
      && m.lf + m.lb - m.rf - m.rr == 4 * q.roll
      && m.rf + m.lb - m.lf - m.rr == 4 * q.yaw)
  {
  }

  lemma TrimmedInFlight(motor: nat, us: int, throttle: int)
    requires motor < 4 && 1130 <= us <= 1470 && throttle >= ACTIVE_MIN_US
    ensures Trimmed(motor, us, throttle) == Max(us + TRIM_US.At(motor), MIN_SPIN_US.At(motor))
    ensures MIN_SPIN_US.At(motor) <= Trimmed(motor, us, throttle) <= 1470 + TRIM_US.At(motor)
  {
  }

  /** In flight every motor turns at its slowest spinning pulse or faster, and never above 1480 us: trim and
      slowest pulse are all that happens to the mix. */
  lemma FlightPulses(throttle: int, q: Torque, motor: nat)
    requires IDLE_US < throttle <= KILL_US && Small(q) && motor < 4
    ensures (var mix, us := Mix(ActiveThrottle(throttle), q), Shaped(throttle, q).At(motor);
      && us == Max(mix.At(motor) + TRIM_US.At(motor), MIN_SPIN_US.At(motor))
      && MIN_SPIN_US.At(motor) <= us <= 1470 + TRIM_US.At(motor))
  {
    MixerNeverSaturates(throttle, q);
    TrimmedInFlight(motor, Mix(ActiveThrottle(throttle), q).At(motor), ActiveThrottle(throttle));
  }

  lemma PulsesInFlight(rc: Rc, body: Body, t: Tuning, motor: nat)
    requires Tuned(t) && IDLE_US < rc.throttle <= KILL_US && motor < 4
    ensures MIN_SPIN_US.At(motor) <= PulsesNow(rc, body, t).At(motor) <= 1470 + TRIM_US.At(motor)
  {
    var q := TorqueNow(rc, body, t);
    FlightPulses(rc.throttle, q, motor);
  }

  lemma FullTorque(error: int, div: int)
    requires 8 <= div <= 80 && error == 6000
    ensures Correction(error, div, TORQUE_MAX_US) == TORQUE_MAX_US
    ensures Correction(-error, div, TORQUE_MAX_US) == -TORQUE_MAX_US
  {
    TimesIsDivision(error, div);
  }

  /** Both ends of that range are reached by some motion of the frame, so the bounds cannot be tightened. */
  lemma FlightPulsesReachBothEnds(t: Tuning)
    requires Tuned(t)
    ensures exists body: Body, rc: Rc :: rc.throttle == KILL_US && PulsesNow(rc, body, t).lf == 1480
    ensures exists body: Body, rc: Rc :: rc.throttle == ACTIVE_MIN_US && PulsesNow(rc, body, t).rr == MIN_SPIN_US.rr
  {
    var fast := Rc(true, 1500, 1500, KILL_US, 1500, true);
    var slow := fast.(throttle := ACTIVE_MIN_US);
    var left := Body(true, true, 0, 0, -6000, -6000, 6000);
    var right := Body(true, true, 0, 0, -6000, -6000, -6000);
    FullTorque(6000, t.rollDiv);
    FullTorque(6000, t.pitchDiv);
    FullTorque(6000, t.yawDiv);
    assert TorqueNow(fast, left, t) == Torque(40, 40, -40);
    assert TorqueNow(slow, right, t) == Torque(40, 40, 40);
    assert PulsesNow(fast, left, t).lf == 1480;
    assert PulsesNow(slow, right, t).rr == MIN_SPIN_US.rr;
  }
}
