/** The controller and the actuator of the formal RT node, in real arithmetic. */
module RtControl {
  import opened Numbers
  import opened Crc32
  import opened Protocol
  import opened Estimator
  import opened Mixer

  /** An arm state is a byte; values other than these three can arrive and count as not armed. */
  type ArmState = Byte

  const DISARMED: ArmState := 0
  const ARMED: ArmState := 1
  const FAILSAFE: ArmState := 2

  datatype ControlSetpoint = ControlSetpoint(throttle: real, rollDeg: real, pitchDeg: real, yawRateDps: real)

  datatype PidConfig = PidConfig(
    kp: real, ki: real, kd: real, integratorMin: real, integratorMax: real, outputMin: real, outputMax: real)

  /** One axis as a value: its tuning, its integrator, and the last measurement unless it is the first. */
  datatype Pid = Pid(config: PidConfig, integrator: real, previous: real, first: bool)

  const ANGLE_AXIS := Pid(PidConfig(4.0, 0.0, 0.05, -50.0, 50.0, -220.0, 220.0), 0.0, 0.0, true)
  const RATE_AXIS := Pid(PidConfig(0.12, 0.02, 0.003, -120.0, 120.0, -1.0, 1.0), 0.0, 0.0, true)
  const YAW_AXIS := Pid(PidConfig(0.12, 0.02, 0.003, -100.0, 100.0, -1.0, 1.0), 0.0, 0.0, true)

  predicate Bounded(p: Pid) {
    && p.config.integratorMin <= 0.0 <= p.config.integratorMax
    && p.config.outputMin <= 0.0 <= p.config.outputMax
    && p.config.integratorMin <= p.integrator <= p.config.integratorMax
  }

  /** No axis is ever outside its integrator limits. */
  type Axis = p: Pid | Bounded(p) witness ANGLE_AXIS

  function AtRest(p: Axis): Axis {
    p.(integrator := 0.0, previous := 0.0, first := true)
  }

  function WithGains(p: Axis, kp: real, ki: real, kd: real): Axis {
    p.(config := p.config.(kp := kp, ki := ki, kd := kd))
  }

  function Charge(error: real, dt: real, ki: real): real { error * dt * ki }

  function Weighted(kp: real, error: real, integral: real, kd: real, slope: real): real {
    kp * error + integral + kd * slope
  }

  function Accumulated(p: Axis, error: real, dt: real): real {
    Clamp(p.integrator + Charge(error, dt, p.config.ki), p.config.integratorMin, p.config.integratorMax)
  }

  function Derivative(p: Axis, dt: real, measured: real): real
    requires dt > 0.0
  {
    if p.first then 0.0 else (p.previous - measured) / dt
  }

  /** What one update leaves behind. */
  function Advanced(p: Axis, error: real, dt: real, measured: real): Axis {
    if dt <= 0.0 then p else p.(integrator := Accumulated(p, error, dt), previous := measured, first := false)
  }

  function Response(p: Axis, error: real, dt: real, measured: real): real {
    if dt <= 0.0 then 0.0
    else Clamp(Weighted(p.config.kp, error, Accumulated(p, error, dt), p.config.kd, Derivative(p, dt, measured)),
               p.config.outputMin, p.config.outputMax)
  }

  /** An axis never leaves its output range and never winds up, whatever it is fed. */
  lemma AxisStaysBounded(p: Axis, error: real, dt: real, measured: real)
    ensures Bounded(Advanced(p, error, dt, measured))
    ensures p.config.outputMin <= Response(p, error, dt, measured) <= p.config.outputMax
    ensures Advanced(p, error, dt, measured).config == p.config
  {
  }

  predicate SameLimits(p: Pid, q: Pid) {
    && p.config.integratorMin == q.config.integratorMin && p.config.integratorMax == q.config.integratorMax
    && p.config.outputMin == q.config.outputMin && p.config.outputMax == q.config.outputMax
  }

  lemma NoErrorNoCharge(dt: real, ki: real)
    ensures Charge(0.0, dt, ki) == 0.0
  {
  }

  /** Retuning on target gives no bump: without an error and without movement the output is what has been integrated,
      whatever the gains become. */
  lemma RetuningIsBumpless(p: Axis, kp: real, ki: real, kd: real, dt: real, measured: real)
    requires dt > 0.0 && (p.first || p.previous == measured)
    ensures Response(WithGains(p, kp, ki, kd), 0.0, dt, measured) == Response(p, 0.0, dt, measured)
    ensures Response(p, 0.0, dt, measured) == Clamp(p.integrator, p.config.outputMin, p.config.outputMax)
    ensures Advanced(WithGains(p, kp, ki, kd), 0.0, dt, measured).integrator == p.integrator
  {
    NoErrorNoCharge(dt, p.config.ki);
    NoErrorNoCharge(dt, ki);
    assert (measured - measured) / dt == 0.0;
  }

  class PidAxis {
    var axis: Axis

    constructor (config: PidConfig)
      requires Bounded(Pid(config, 0.0, 0.0, true))
      ensures axis == Pid(config, 0.0, 0.0, true)
    {
      axis := Pid(config, 0.0, 0.0, true);
    }

    method Update(error: real, dtS: real, measured: real) returns (output: real)
      modifies this
      ensures axis == Advanced(old(axis), error, dtS, measured)
      ensures output == Response(old(axis), error, dtS, measured)
    {
      if dtS <= 0.0 {
        return 0.0;
      }
      var config := axis.config;
      var integrator := axis.integrator + Charge(error, dtS, config.ki);
      axis := axis.(integrator := Clamp(integrator, config.integratorMin, config.integratorMax));
      var derivative := if axis.first then 0.0 else (axis.previous - measured) / dtS;
      axis := axis.(first := false);
      axis := axis.(previous := measured);
      output := Weighted(config.kp, error, axis.integrator, config.kd, derivative);
      output := Clamp(output, config.outputMin, config.outputMax);
    }

    method Reset()
      modifies this
      ensures axis == AtRest(old(axis))
    {
      axis := axis.(integrator := 0.0);
      axis := axis.(previous := 0.0);
      axis := axis.(first := true);
    }

    method SetTunings(kp: real, ki: real, kd: real)
      modifies this
      ensures axis == WithGains(old(axis), kp, ki, kd)
      ensures axis.config.kp == kp && axis.config.ki == ki && axis.config.kd == kd
      ensures SameLimits(axis, old(axis))
      ensures (axis.integrator, axis.previous, axis.first) == old((axis.integrator, axis.previous, axis.first))
    {
      axis := axis.(config := axis.config.(kp := kp));
      axis := axis.(config := axis.config.(ki := ki));
      axis := axis.(config := axis.config.(kd := kd));
    }
  }

  // ---------- The five axes ----------

  datatype Axes = Axes(rollAngle: Axis, pitchAngle: Axis, rollRate: Axis, pitchRate: Axis, yawRate: Axis)

  const INITIAL_AXES := Axes(ANGLE_AXIS, ANGLE_AXIS, RATE_AXIS, RATE_AXIS, YAW_AXIS)

  function AxesAtRest(a: Axes): Axes {
    Axes(AtRest(a.rollAngle), AtRest(a.pitchAngle), AtRest(a.rollRate), AtRest(a.pitchRate), AtRest(a.yawRate))
  }

  function AxesWithGains(a: Axes, c: FlightConfig): Axes {
    Axes(WithGains(a.rollAngle, c.angleP, 0.0, 0.05), WithGains(a.pitchAngle, c.angleP, 0.0, 0.05),
         WithGains(a.rollRate, c.rateP, c.rateI, c.rateD), WithGains(a.pitchRate, c.rateP, c.rateI, c.rateD),
         WithGains(a.yawRate, c.rateP, c.rateI, c.rateD))
  }

  /** The gains the controller accepts; everything else of a configuration is kept as it came. */
  function Sane(c: FlightConfig): FlightConfig {
    c.(angleP := Clamp(c.angleP, 0.5, 20.0), rateP := Clamp(c.rateP, 0.01, 1.0),
       rateI := Clamp(c.rateI, 0.0, 1.0), rateD := Clamp(c.rateD, 0.0, 0.1))
  }

  predicate Flyable(s: ControlSetpoint) {
    0.0 <= s.throttle <= 1.0 && -35.0 <= s.rollDeg <= 35.0 && -35.0 <= s.pitchDeg <= 35.0
    && -180.0 <= s.yawRateDps <= 180.0
  }

  type SaneSetpoint = s: ControlSetpoint | Flyable(s) witness ControlSetpoint(0.0, 0.0, 0.0, 0.0)

  function Limited(s: ControlSetpoint): SaneSetpoint {
    ControlSetpoint(Clamp(s.throttle, 0.0, 1.0), Clamp(s.rollDeg, -35.0, 35.0),
                    Clamp(s.pitchDeg, -35.0, 35.0), Clamp(s.yawRateDps, -180.0, 180.0))
  }

  function Distance(x: real, y: real): real { if x <= y then y - x else x - y }

  predicate NoFarther(s: ControlSetpoint, t: ControlSetpoint, u: ControlSetpoint) {
    && Distance(t.throttle, s.throttle) <= Distance(u.throttle, s.throttle)
    && Distance(t.rollDeg, s.rollDeg) <= Distance(u.rollDeg, s.rollDeg)
    && Distance(t.pitchDeg, s.pitchDeg) <= Distance(u.pitchDeg, s.pitchDeg)
    && Distance(t.yawRateDps, s.yawRateDps) <= Distance(u.yawRateDps, s.yawRateDps)
  }

  /** The limited setpoint is the one flyable setpoint that is nearest in all four parts to the wanted one. */
  lemma LimitedExactly(s: ControlSetpoint, t: SaneSetpoint)
    ensures t == Limited(s) <==> forall u: SaneSetpoint :: NoFarther(s, t, u)
    ensures Limited(s) == s <==> Flyable(s)
  {
    if forall u: SaneSetpoint :: NoFarther(s, t, u) {
      assert NoFarther(s, t, Limited(s));
    }
  }

  function WantedRoll(a: Axes, sp: ControlSetpoint, s: AttitudeState, dt: real): real {
    Response(a.rollAngle, sp.rollDeg - s.rollDeg, dt, s.rollDeg)
  }

  function WantedPitch(a: Axes, sp: ControlSetpoint, s: AttitudeState, dt: real): real {
    Response(a.pitchAngle, sp.pitchDeg - s.pitchDeg, dt, s.pitchDeg)
  }

  /** The angle axes ask the rate axes for a rotation. */
  function AxesAdvanced(a: Axes, sp: ControlSetpoint, s: AttitudeState, dt: real): Axes {
    Axes(Advanced(a.rollAngle, sp.rollDeg - s.rollDeg, dt, s.rollDeg),
         Advanced(a.pitchAngle, sp.pitchDeg - s.pitchDeg, dt, s.pitchDeg),
         Advanced(a.rollRate, WantedRoll(a, sp, s, dt) - s.rollRateDps, dt, s.rollRateDps),
         Advanced(a.pitchRate, WantedPitch(a, sp, s, dt) - s.pitchRateDps, dt, s.pitchRateDps),
         Advanced(a.yawRate, sp.yawRateDps - s.yawRateDps, dt, s.yawRateDps))
  }

  function ClampPwm(us: real): (r: int)
    ensures 1000 <= r <= 2000
  {
    Clamp(us, 1000.0, 2000.0).Floor
  }

  predicate InRange(q: Quad) {
    1000 <= q.lf <= 2000 && 1000 <= q.rf <= 2000 && 1000 <= q.rr <= 2000 && 1000 <= q.lb <= 2000
  }

  type MotorPwm = q: Quad | InRange(q) witness ALL_IDLE

  /** Motors 1 to 4 of this frame, before they are bounded. */
  datatype RawMix = RawMix(m1: real, m2: real, m3: real, m4: real)

  function RawPwm(throttle: real, pitch: real, roll: real, yaw: real): RawMix {
    var base := 1000.0 + throttle * 1000.0;
    RawMix(base + (pitch - roll - yaw) * 320.0, base + (-pitch - roll + yaw) * 320.0,
           base + (-pitch + roll - yaw) * 320.0, base + (pitch + roll + yaw) * 320.0)
  }

  function MixPwm(throttle: real, pitch: real, roll: real, yaw: real): MotorPwm {
    var raw := RawPwm(throttle, pitch, roll, yaw);
    Quad(ClampPwm(raw.m1), ClampPwm(raw.m2), ClampPwm(raw.m3), ClampPwm(raw.m4))
  }

  datatype Torques = Torques(pitch: real, roll: real, yaw: real)

  function AxesResponse(a: Axes, sp: ControlSetpoint, s: AttitudeState, dt: real): Torques {
    Torques(Response(a.pitchRate, WantedPitch(a, sp, s, dt) - s.pitchRateDps, dt, s.pitchRateDps),
            Response(a.rollRate, WantedRoll(a, sp, s, dt) - s.rollRateDps, dt, s.rollRateDps),
            Response(a.yawRate, sp.yawRateDps - s.yawRateDps, dt, s.yawRateDps))
  }

  function Driven(a: Axes, sp: ControlSetpoint, s: AttitudeState, dt: real): MotorPwm {
    var q := AxesResponse(a, sp, s, dt);
    MixPwm(sp.throttle, q.pitch, q.roll, q.yaw)
  }

  lemma ChargeFollows(error: real, dt: real, ki: real)
    requires dt > 0.0 && ki >= 0.0
    ensures (error >= 0.0 ==> Charge(error, dt, ki) >= 0.0) && (error <= 0.0 ==> Charge(error, dt, ki) <= 0.0)
  {
    Signs(error, dt);
    Signs(error * dt, ki);
    Signs(-error * dt, ki);
    assert (-error * dt) * ki == -((error * dt) * ki);
  }

  predicate SameSign(x: real, y: real) { (x > 0.0 <==> y > 0.0) && (x < 0.0 <==> y < 0.0) }

  /** Every torque has the direction from what is measured to what is wanted. */
  predicate Corrects(q: Torques, sp: ControlSetpoint, s: AttitudeState) {
    && SameSign(q.roll, sp.rollDeg - s.rollDeg)
    && SameSign(q.pitch, sp.pitchDeg - s.pitchDeg)
    && SameSign(q.yaw, sp.yawRateDps - s.yawRateDps)
  }

  /** An axis at rest answers an error in its own direction. */
  lemma AxisFollows(p: Axis, error: real, dt: real, measured: real)
    requires p == AtRest(p) && dt > 0.0
    requires p.config.kp > 0.0 && p.config.ki >= 0.0 && p.config.outputMin < 0.0 < p.config.outputMax
    ensures SameSign(Response(p, error, dt, measured), error)
  {
    Signs(p.config.kp, error);
    Signs(error, p.config.kp);
    ChargeFollows(error, dt, p.config.ki);
  }

  // ---------- Whole lives of the five axes ----------

  /** What happens to the axes of a controller. */
  datatype AxesEvent =
    | Reconfigured(config: FlightConfig)
    | Rearmed
    | Controlled(sp: ControlSetpoint, s: AttitudeState, dt: real)

  function AfterEvent(a: Axes, e: AxesEvent): Axes {
    match e
    case Reconfigured(c) => AxesAtRest(AxesWithGains(a, Sane(c)))
    case Rearmed => AxesAtRest(a)
    case Controlled(sp, s, dt) => AxesAdvanced(a, sp, s, dt)
  }

  function AfterEvents(es: seq<AxesEvent>): Axes {
    if es == [] then AxesAtRest(AxesWithGains(INITIAL_AXES, DEFAULT_CONFIG))
    else AfterEvent(AfterEvents(es[..|es| - 1]), es[|es| - 1])
  }

  function LastConfig(es: seq<AxesEvent>): FlightConfig {
    if es == [] then DEFAULT_CONFIG
    else match es[|es| - 1] case Reconfigured(c) => c case _ => LastConfig(es[..|es| - 1])
  }

  /** Only the last configuration shows in the axes once they are at rest; nothing else of their life does. */
  lemma {:induction false} AlwaysTuned(es: seq<AxesEvent>)
    ensures AxesAtRest(AfterEvents(es)) == AxesAtRest(AxesWithGains(INITIAL_AXES, Sane(LastConfig(es))))
  {
    if es != [] {
      AlwaysTuned(es[..|es| - 1]);
    }
  }

  /** So a configuration is a fresh start: after it the axes are the same whatever they went through before. */
  lemma ReconfiguringStartsAfresh(es: seq<AxesEvent>, c: FlightConfig)
    ensures AfterEvents(es + [Reconfigured(c)]) == AxesAtRest(AxesWithGains(INITIAL_AXES, Sane(c)))
  {
    AlwaysTuned(es);
    AlwaysTuned(es + [Reconfigured(c)]);
    assert (es + [Reconfigured(c)])[..|es|] == es;
  }

  /** So many units for each unit of error, within a limit. */
  function Proportional(gain: real, error: real, limit: real): real
    requires limit >= 0.0
  {
    Clamp(Portion(gain, error), -limit, limit)
  }

  lemma SameFactor(x: real, k: real, j: real)
    ensures k * x + j * x == (k + j) * x
  {
  }

  lemma AddedInOneDirection(p: real, i: real, limit: real, far: real)
    requires 0.0 <= limit <= far && ((p >= 0.0 && i >= 0.0) || (p <= 0.0 && i <= 0.0))
    ensures Clamp(p + Clamp(i, -far, far), -limit, limit) == Clamp(p + i, -limit, limit)
  {
  }

  lemma PartsFromRest(kp: real, ki: real, kd: real, error: real, dt: real)
    requires kp >= 0.0 && ki >= 0.0 && dt > 0.0
    ensures (var p, i := Portion(kp, error), Charge(error, dt, ki);
      && ((p >= 0.0 && i >= 0.0) || (p <= 0.0 && i <= 0.0))
      && p + i == Portion(kp + Portion(dt, ki), error)
      && forall sum :: Weighted(kp, error, sum, kd, 0.0) == p + sum)
  {
    ChargeFollows(error, dt, ki);
    if error >= 0.0 {
      Signs(kp, error);
    } else {
      Signs(kp, -error);
      assert kp * -error == -(kp * error);
    }
    SameFactor(error, kp, dt * ki);
    assert Charge(error, dt, ki) == (dt * ki) * error;
  }

  /** What one update of an axis at rest answers, in closed form: the integrator's limits never show in it, since the
      output's are reached first. */
  lemma AnswerFromRest(p: Axis, error: real, dt: real, measured: real)
    requires p == AtRest(p) && dt > 0.0 && p.config.kp >= 0.0 && p.config.ki >= 0.0
    requires p.config.outputMin == -p.config.outputMax && p.config.integratorMin == -p.config.integratorMax
    requires p.config.outputMax <= p.config.integratorMax
    ensures (Response(p, error, dt, measured)
      == Proportional(p.config.kp + Portion(dt, p.config.ki), error, p.config.outputMax))
  {
    var c := p.config;
    PartsFromRest(c.kp, c.ki, c.kd, error, dt);
    hide Charge, Portion, Weighted;
    AddedInOneDirection(Portion(c.kp, error), Charge(error, dt, c.ki), c.outputMax, c.integratorMax);
  }

  /** An angle axis has no integral part, so at rest it asks for kp degrees a second for each degree of error. */
  lemma AngleFromRest(p: Axis, error: real, dt: real, measured: real)
    requires p == AtRest(p) && dt > 0.0 && p.config.ki == 0.0 && p.config.outputMin == -p.config.outputMax
    ensures Response(p, error, dt, measured) == Proportional(p.config.kp, error, p.config.outputMax)
  {
    assert Charge(error, dt, 0.0) == 0.0;
  }

  lemma CascadeFromRest(angle: Axis, rate: Axis, wanted: real, leaning: real, turning: real, dt: real)
    requires angle == AtRest(angle) && angle.config.ki == 0.0 && rate == AtRest(rate) && dt > 0.0
    requires SameLimits(angle, ANGLE_AXIS) && SameLimits(rate, RATE_AXIS)
    requires rate.config.kp >= 0.0 && rate.config.ki >= 0.0
    ensures (Response(rate, Response(angle, wanted - leaning, dt, leaning) - turning, dt, turning)
      == Proportional(rate.config.kp + Portion(dt, rate.config.ki),
                      Proportional(angle.config.kp, wanted - leaning, 220.0) - turning, 1.0))
  {
    hide Response, Proportional, Portion;
    AngleFromRest(angle, wanted - leaning, dt, leaning);
    AnswerFromRest(rate, Response(angle, wanted - leaning, dt, leaning) - turning, dt, turning);
  }

  lemma RestingGains(c: FlightConfig, a: Axes)
    requires a == AxesAtRest(AxesWithGains(INITIAL_AXES, Sane(c)))
    ensures a == AxesAtRest(a) && Sane(c).angleP > 0.0 && Sane(c).rateP > 0.0 && Sane(c).rateI >= 0.0
    ensures SameLimits(a.rollAngle, ANGLE_AXIS) && SameLimits(a.pitchAngle, ANGLE_AXIS)
    ensures SameLimits(a.rollRate, RATE_AXIS) && SameLimits(a.pitchRate, RATE_AXIS) && SameLimits(a.yawRate, YAW_AXIS)
    ensures a.rollAngle.config.kp == a.pitchAngle.config.kp == Sane(c).angleP
    ensures a.rollAngle.config.ki == a.pitchAngle.config.ki == 0.0
    ensures a.rollAngle.config.kd == a.pitchAngle.config.kd == 0.05
    ensures a.rollRate.config.kd == a.pitchRate.config.kd == a.yawRate.config.kd == Sane(c).rateD
    ensures a.rollRate.config.kp == a.pitchRate.config.kp == a.yawRate.config.kp == Sane(c).rateP
    ensures a.rollRate.config.ki == a.pitchRate.config.ki == a.yawRate.config.ki == Sane(c).rateI
  {
  }

  /** The torques of the first step, in closed form: a lean asks for a rotation, at most 220 degrees a second, and the
      rotation that is missing for a torque. */
  lemma TorquesFromRestExactly(c: FlightConfig, sp: ControlSetpoint, s: AttitudeState, dt: real, a: Axes)
    requires a == AxesAtRest(AxesWithGains(INITIAL_AXES, Sane(c))) && dt > 0.0
    ensures (var q, p, k := AxesResponse(a, sp, s, dt), Sane(c).angleP, Sane(c).rateP + Portion(dt, Sane(c).rateI);
      && q.roll == Proportional(k, Proportional(p, sp.rollDeg - s.rollDeg, 220.0) - s.rollRateDps, 1.0)
      && q.pitch == Proportional(k, Proportional(p, sp.pitchDeg - s.pitchDeg, 220.0) - s.pitchRateDps, 1.0)
      && q.yaw == Proportional(k, sp.yawRateDps - s.yawRateDps, 1.0))
  {
    RestingGains(c, a);
    hide Response, Proportional, Portion, Sane, AxesAtRest, AxesWithGains;
    CascadeFromRest(a.rollAngle, a.rollRate, sp.rollDeg, s.rollDeg, s.rollRateDps, dt);
    CascadeFromRest(a.pitchAngle, a.pitchRate, sp.pitchDeg, s.pitchDeg, s.pitchRateDps, dt);
    AnswerFromRest(a.yawRate, sp.yawRateDps - s.yawRateDps, dt, s.yawRateDps);
  }

  lemma ProportionalSign(gain: real, error: real, limit: real)
    requires gain > 0.0 && limit > 0.0
    ensures SameSign(Proportional(gain, error, limit), error)
  {
    Signs(error, gain);
  }

  lemma NotZero(dt: real, c: FlightConfig)
    requires dt > 0.0
    ensures Sane(c).angleP > 0.0 && Sane(c).rateP + Portion(dt, Sane(c).rateI) > 0.0
  {
    Signs(dt, Sane(c).rateI);
  }

  /** From axes at rest a frame that does not turn is turned from where it leans to where it is wanted, and one that
      leans as it is wanted is braked; each axis by its own measurements. */
  lemma TorquesFromRest(c: FlightConfig, sp: ControlSetpoint, s: AttitudeState, dt: real, a: Axes)
    requires a == AxesAtRest(AxesWithGains(INITIAL_AXES, Sane(c))) && dt > 0.0
    ensures s.rollRateDps == s.pitchRateDps == 0.0 ==> Corrects(AxesResponse(a, sp, s, dt), sp, s)
    ensures s.rollDeg == sp.rollDeg ==> SameSign(AxesResponse(a, sp, s, dt).roll, -s.rollRateDps)
    ensures s.pitchDeg == sp.pitchDeg ==> SameSign(AxesResponse(a, sp, s, dt).pitch, -s.pitchRateDps)
    ensures SameSign(AxesResponse(a, sp, s, dt).yaw, sp.yawRateDps - s.yawRateDps)
  {
    hide AxesResponse, Proportional, Portion, Sane;
    TorquesFromRestExactly(c, sp, s, dt, a);
    NotZero(dt, c);
    var p, k := Sane(c).angleP, Sane(c).rateP + Portion(dt, Sane(c).rateI);
    ProportionalSign(p, sp.rollDeg - s.rollDeg, 220.0);
    ProportionalSign(p, sp.pitchDeg - s.pitchDeg, 220.0);
    ProportionalSign(k, Proportional(p, sp.rollDeg - s.rollDeg, 220.0) - s.rollRateDps, 1.0);
    ProportionalSign(k, Proportional(p, sp.pitchDeg - s.pitchDeg, 220.0) - s.pitchRateDps, 1.0);
    ProportionalSign(k, sp.yawRateDps - s.yawRateDps, 1.0);
  }

  /** So whatever happened before, as soon as the axes are at rest, as they are after any change of the arm state or of
      the configuration. */
  lemma TorquesFollowSetpoint(es: seq<AxesEvent>, sp: ControlSetpoint, s: AttitudeState, dt: real, a: Axes)
    requires a == AxesAtRest(AfterEvents(es)) && dt > 0.0
    ensures s.rollRateDps == s.pitchRateDps == 0.0 ==> Corrects(AxesResponse(a, sp, s, dt), sp, s)
    ensures s.rollDeg == sp.rollDeg ==> SameSign(AxesResponse(a, sp, s, dt).roll, -s.rollRateDps)
    ensures s.pitchDeg == sp.pitchDeg ==> SameSign(AxesResponse(a, sp, s, dt).pitch, -s.pitchRateDps)
    ensures SameSign(AxesResponse(a, sp, s, dt).yaw, sp.yawRateDps - s.yawRateDps)
  {
    AlwaysTuned(es);
    TorquesFromRest(LastConfig(es), sp, s, dt, a);
  }

  // ---------- The feedback is negative, at any time ----------

  predicate PushesBack(p: Axis) { p.config.kp >= 0.0 && p.config.ki >= 0.0 && p.config.kd >= 0.0 }

  predicate AllPushBack(a: Axes) {
    && PushesBack(a.rollAngle) && PushesBack(a.pitchAngle)
    && PushesBack(a.rollRate) && PushesBack(a.pitchRate) && PushesBack(a.yawRate)
  }

  lemma ProductMonotone(x: real, y: real, k: real)
    requires x <= y && k >= 0.0
    ensures k * x <= k * y && x * k <= y * k
  {
    Signs(y - x, k);
    assert (y - x) * k == y * k - x * k;
  }

  lemma ChargeMonotone(error: real, error': real, dt: real, ki: real)
    requires error' <= error && dt > 0.0 && ki >= 0.0
    ensures Charge(error', dt, ki) <= Charge(error, dt, ki)
  {
    ProductMonotone(error', error, dt);
    ProductMonotone(error' * dt, error * dt, ki);
  }

  lemma WeightedMonotone(c: PidConfig, error: real, error': real, sum: real, sum': real, slope: real, slope': real)
    requires c.kp >= 0.0 && c.kd >= 0.0 && error' <= error && sum' <= sum && slope' <= slope
    ensures Weighted(c.kp, error', sum', c.kd, slope') <= Weighted(c.kp, error, sum, c.kd, slope)
  {
    ProductMonotone(error', error, c.kp);
    ProductMonotone(slope', slope, c.kd);
  }

  lemma DerivativeAntitone(p: Axis, dt: real, measured: real, measured': real)
    requires dt > 0.0 && measured <= measured'
    ensures Derivative(p, dt, measured') <= Derivative(p, dt, measured)
  {
    var x, y := (p.previous - measured') / dt, (p.previous - measured) / dt;
    Cancel(p.previous - measured', 0.0, dt);
    Cancel(p.previous - measured, 0.0, dt);
    Cancel(y, x, dt);
  }

  /** Of one axis: a smaller error and a larger measurement never raise the answer, whatever it has integrated and
      whatever it measured last. */
  lemma AnswerOpposes(p: Axis, error: real, error': real, dt: real, measured: real, measured': real)
    requires PushesBack(p) && dt > 0.0 && error' <= error && measured <= measured'
    ensures Response(p, error', dt, measured') <= Response(p, error, dt, measured)
  {
    hide Charge, Weighted, Derivative;
    ChargeMonotone(error, error', dt, p.config.ki);
    DerivativeAntitone(p, dt, measured, measured');
    WeightedMonotone(p.config, error, error', Accumulated(p, error, dt), Accumulated(p, error', dt),
                     Derivative(p, dt, measured), Derivative(p, dt, measured'));
  }

  /** Of all five, at any time: leaning further or turning faster never raises the torque on that axis. */
  lemma FeedbackOpposes(a: Axes, sp: ControlSetpoint, s: AttitudeState, t: AttitudeState, dt: real)
    requires AllPushBack(a) && dt > 0.0
    ensures (s.rollDeg <= t.rollDeg && s.rollRateDps <= t.rollRateDps ==>
      AxesResponse(a, sp, t, dt).roll <= AxesResponse(a, sp, s, dt).roll)
    ensures (s.pitchDeg <= t.pitchDeg && s.pitchRateDps <= t.pitchRateDps ==>
      AxesResponse(a, sp, t, dt).pitch <= AxesResponse(a, sp, s, dt).pitch)
    ensures s.yawRateDps <= t.yawRateDps ==> AxesResponse(a, sp, t, dt).yaw <= AxesResponse(a, sp, s, dt).yaw
  {
    hide Response;
    if s.rollDeg <= t.rollDeg && s.rollRateDps <= t.rollRateDps {
      AnswerOpposes(a.rollAngle, sp.rollDeg - s.rollDeg, sp.rollDeg - t.rollDeg, dt, s.rollDeg, t.rollDeg);
      AnswerOpposes(a.rollRate, WantedRoll(a, sp, s, dt) - s.rollRateDps, WantedRoll(a, sp, t, dt) - t.rollRateDps,
                    dt, s.rollRateDps, t.rollRateDps);
    }
    if s.pitchDeg <= t.pitchDeg && s.pitchRateDps <= t.pitchRateDps {
      AnswerOpposes(a.pitchAngle, sp.pitchDeg - s.pitchDeg, sp.pitchDeg - t.pitchDeg, dt, s.pitchDeg, t.pitchDeg);
      AnswerOpposes(a.pitchRate, WantedPitch(a, sp, s, dt) - s.pitchRateDps,
                    WantedPitch(a, sp, t, dt) - t.pitchRateDps, dt, s.pitchRateDps, t.pitchRateDps);
    }
    if s.yawRateDps <= t.yawRateDps {
      AnswerOpposes(a.yawRate, sp.yawRateDps - s.yawRateDps, sp.yawRateDps - t.yawRateDps,
                    dt, s.yawRateDps, t.yawRateDps);
    }
  }

  /** In every life of the axes the gains let them push back. */
  lemma {:induction false} AlwaysPushBack(es: seq<AxesEvent>)
    ensures AllPushBack(AfterEvents(es))
  {
    if es != [] {
      AlwaysPushBack(es[..|es| - 1]);
    }
  }

  // ---------- The textbook ----------

  /** One sample of a loop: the error, the time since the last, and the measurement. */
  datatype Fed = Fed(error: real, dt: real, measured: real)

  function AfterFed(p: Axis, fs: seq<Fed>): Axis {
    if fs == [] then p
    else
      var f := fs[|fs| - 1];
      Advanced(AfterFed(p, fs[..|fs| - 1]), f.error, f.dt, f.measured)
  }

  /** The error over time. */
  function Area(fs: seq<Fed>): real {
    if fs == [] then 0.0 else Area(fs[..|fs| - 1]) + Portion(fs[|fs| - 1].error, fs[|fs| - 1].dt)
  }

  predicate Running(fs: seq<Fed>) {
    fs != [] ==> fs[|fs| - 1].dt > 0.0 && Running(fs[..|fs| - 1])
  }

  /** The integral has not met its limits so far. */
  predicate Unsaturated(c: PidConfig, fs: seq<Fed>) {
    && c.integratorMin <= Portion(Area(fs), c.ki) <= c.integratorMax
    && (fs != [] ==> Unsaturated(c, fs[..|fs| - 1]))
  }

  /** The textbook law: in proportion to the error and to its area, and against the speed of what is measured. */
  function TextbookLaw(c: PidConfig, error: real, area: real, speed: real): real {
    c.kp * error + c.ki * area - c.kd * speed
  }

  function TextbookAnswer(c: PidConfig, error: real, area: real, speed: real): real
    requires c.outputMin <= c.outputMax
  {
    Clamp(TextbookLaw(c, error, area, speed), c.outputMin, c.outputMax)
  }

  function Speed(now: real, before: real, dt: real): real
    requires dt > 0.0
  {
    (now - before) / dt
  }

  lemma ChargeAdds(area: real, error: real, dt: real, ki: real)
    ensures Portion(area + Portion(error, dt), ki) == Portion(area, ki) + Charge(error, dt, ki)
    ensures Portion(0.0, ki) == 0.0
  {
  }

  lemma {:induction false} IntegratesTheError(p: Axis, fs: seq<Fed>)
    requires p == AtRest(p) && Unsaturated(p.config, fs) && Running(fs)
    ensures AfterFed(p, fs).config == p.config && AfterFed(p, fs).integrator == Portion(Area(fs), p.config.ki)
    ensures fs != [] ==> AfterFed(p, fs).previous == fs[|fs| - 1].measured && !AfterFed(p, fs).first
  {
    hide Charge, Portion;
    if fs == [] {
      ChargeAdds(0.0, 0.0, 0.0, p.config.ki);
    } else {
      var before, f := fs[..|fs| - 1], fs[|fs| - 1];
      IntegratesTheError(p, before);
      ChargeAdds(Area(before), f.error, f.dt, p.config.ki);
    }
  }

  lemma TextbookWeights(c: PidConfig, error: real, area: real, now: real, before: real, dt: real)
    requires dt > 0.0
    ensures (Weighted(c.kp, error, Portion(area, c.ki), c.kd, (before - now) / dt)
      == TextbookLaw(c, error, area, Speed(now, before, dt)))
  {
    assert (before - now) / dt == -((now - before) / dt);
  }

  /** Parts of the next answer of an axis that has integrated the given area. */
  lemma AnswerParts(q: Axis, area: real, f: Fed)
    requires q.integrator == Portion(area, q.config.ki) && !q.first && f.dt > 0.0
    requires q.config.integratorMin <= Portion(area + Portion(f.error, f.dt), q.config.ki) <= q.config.integratorMax
    ensures (Response(q, f.error, f.dt, f.measured)
      == TextbookAnswer(q.config, f.error, area + Portion(f.error, f.dt), Speed(f.measured, q.previous, f.dt)))
  {
    hide Charge, Weighted, Portion, TextbookLaw, Speed;
    ChargeAdds(area, f.error, f.dt, q.config.ki);
    TextbookWeights(q.config, f.error, area + Portion(f.error, f.dt), f.measured, q.previous, f.dt);
  }

  /** From rest on, as long as its integrator is inside its limits, an axis follows that law within its output range. */
  lemma TextbookPid(p: Axis, fs: seq<Fed>, f: Fed)
    requires p == AtRest(p) && fs != [] && Unsaturated(p.config, fs + [f]) && Running(fs + [f])
    ensures f.dt > 0.0
    ensures (Response(AfterFed(p, fs), f.error, f.dt, f.measured)
      == TextbookAnswer(p.config, f.error, Area(fs + [f]), Speed(f.measured, fs[|fs| - 1].measured, f.dt)))
  {
    assert (fs + [f])[..|fs|] == fs;
    assert Area(fs + [f]) == Area(fs) + Portion(f.error, f.dt);
    assert Unsaturated(p.config, fs) && Running(fs);
    IntegratesTheError(p, fs);
    hide Response, AfterFed, TextbookAnswer, Speed, Portion, Area, Running;
    AnswerParts(AfterFed(p, fs), Area(fs), f);
  }

  // ---------- The cascade over time ----------

  /** One control step, as all five axes see it. */
  datatype Sampled = Sampled(sp: ControlSetpoint, s: AttitudeState, dt: real)

  function AfterSteps(a: Axes, ts: seq<Sampled>): Axes {
    if ts == [] then a
    else
      var t := ts[|ts| - 1];
      AxesAdvanced(AfterSteps(a, ts[..|ts| - 1]), t.sp, t.s, t.dt)
  }

  /** One control step as roll or pitch sees it. */
  datatype Sight = Sight(wanted: real, leaning: real, turning: real, dt: real)

  function RollSight(t: Sampled): Sight { Sight(t.sp.rollDeg, t.s.rollDeg, t.s.rollRateDps, t.dt) }

  function PitchSight(t: Sampled): Sight { Sight(t.sp.pitchDeg, t.s.pitchDeg, t.s.pitchRateDps, t.dt) }

  function YawFed(t: Sampled): Fed { Fed(t.sp.yawRateDps - t.s.yawRateDps, t.dt, t.s.yawRateDps) }

  function RollSights(ts: seq<Sampled>): (vs: seq<Sight>)
    ensures |vs| == |ts|
  {
    if ts == [] then [] else RollSights(ts[..|ts| - 1]) + [RollSight(ts[|ts| - 1])]
  }

  function PitchSights(ts: seq<Sampled>): (vs: seq<Sight>)
    ensures |vs| == |ts|
  {
    if ts == [] then [] else PitchSights(ts[..|ts| - 1]) + [PitchSight(ts[|ts| - 1])]
  }

  function YawFeds(ts: seq<Sampled>): (fs: seq<Fed>)
    ensures |fs| == |ts|
  {
    if ts == [] then [] else YawFeds(ts[..|ts| - 1]) + [YawFed(ts[|ts| - 1])]
  }

  predicate Timed(vs: seq<Sight>) {
    vs != [] ==> vs[|vs| - 1].dt > 0.0 && Timed(vs[..|vs| - 1])
  }

  /** The rotation that the last step asks for: against the lean that is too much, and against its growth since the
      step before. */
  function Target(c: PidConfig, vs: seq<Sight>): real
    requires vs != [] && Timed(vs) && c.outputMin <= c.outputMax
  {
    var v := vs[|vs| - 1];
    TextbookAnswer(c, v.wanted - v.leaning, 0.0,
                   if |vs| == 1 then 0.0 else Speed(v.leaning, vs[|vs| - 2].leaning, v.dt))
  }

  /** What the rate axis is fed in the cascade. */
  function Turning(c: PidConfig, vs: seq<Sight>): (fs: seq<Fed>)
    requires Timed(vs) && c.outputMin <= c.outputMax
    ensures |fs| == |vs| && Running(fs)
  {
    if vs == [] then []
    else
      var v, before := vs[|vs| - 1], Turning(c, vs[..|vs| - 1]);
      var fs := before + [Fed(Target(c, vs) - v.turning, v.dt, v.turning)];
      assert fs[..|before|] == before;
      fs
  }

  /** What the angle axis is fed. */
  function Leaning(vs: seq<Sight>): (fs: seq<Fed>)
    requires Timed(vs)
    ensures |fs| == |vs| && Running(fs)
  {
    if vs == [] then []
    else
      var v, before := vs[|vs| - 1], Leaning(vs[..|vs| - 1]);
      var fs := before + [Fed(v.wanted - v.leaning, v.dt, v.leaning)];
      assert fs[..|before|] == before;
      fs
  }

  lemma {:induction false} NoIntegral(c: PidConfig, fs: seq<Fed>)
    requires c.ki == 0.0 && c.integratorMin <= 0.0 <= c.integratorMax
    ensures Unsaturated(c, fs)
  {
    assert Portion(Area(fs), c.ki) == 0.0;
    if fs != [] {
      NoIntegral(c, fs[..|fs| - 1]);
    }
  }

  lemma AreaDoesNotMatter(c: PidConfig, error: real, area: real, speed: real)
    requires c.ki == 0.0 && c.outputMin <= c.outputMax
    ensures TextbookAnswer(c, error, area, speed) == TextbookAnswer(c, error, 0.0, speed)
  {
    assert c.ki * area == 0.0;
  }

  lemma FirstTarget(p: Axis, error: real, dt: real, measured: real)
    requires p == AtRest(p) && p.config.ki == 0.0 && dt > 0.0
    ensures Response(p, error, dt, measured) == TextbookAnswer(p.config, error, 0.0, 0.0)
  {
    assert Charge(error, dt, 0.0) == 0.0;
  }

  lemma LaterTarget(p: Axis, fs: seq<Fed>, f: Fed)
    requires p == AtRest(p) && p.config.ki == 0.0 && fs != [] && Running(fs + [f])
    ensures f.dt > 0.0
    ensures (Response(AfterFed(p, fs), f.error, f.dt, f.measured)
      == TextbookAnswer(p.config, f.error, 0.0, Speed(f.measured, fs[|fs| - 1].measured, f.dt)))
  {
    hide Response, AfterFed, TextbookAnswer, Unsaturated, Speed, Area;
    NoIntegral(p.config, fs + [f]);
    AreaDoesNotMatter(p.config, f.error, Area(fs + [f]), Speed(f.measured, fs[|fs| - 1].measured, f.dt));
    TextbookPid(p, fs, f);
  }

  function LeanFed(v: Sight): Fed { Fed(v.wanted - v.leaning, v.dt, v.leaning) }

  lemma LeaningLast(vs: seq<Sight>)
    requires vs != [] && Timed(vs)
    ensures Leaning(vs) == Leaning(vs[..|vs| - 1]) + [LeanFed(vs[|vs| - 1])]
  {
  }

  lemma AsksForLaterTarget(p: Axis, vs: seq<Sight>)
    requires p == AtRest(p) && p.config.ki == 0.0 && |vs| >= 2 && Timed(vs)
    ensures (var v := vs[|vs| - 1];
      Response(AfterFed(p, Leaning(vs[..|vs| - 1])), v.wanted - v.leaning, v.dt, v.leaning) == Target(p.config, vs))
  {
    hide Response, TextbookAnswer, Speed, AfterFed;
    LeaningLast(vs);
    LeaningLast(vs[..|vs| - 1]);
    LaterTarget(p, Leaning(vs[..|vs| - 1]), LeanFed(vs[|vs| - 1]));
  }

  /** The angle axis asks for the target, at every step from rest on. */
  lemma AsksForTarget(p: Axis, vs: seq<Sight>)
    requires p == AtRest(p) && p.config.ki == 0.0 && vs != [] && Timed(vs)
    ensures (var v := vs[|vs| - 1];
      Response(AfterFed(p, Leaning(vs[..|vs| - 1])), v.wanted - v.leaning, v.dt, v.leaning) == Target(p.config, vs))
  {
    hide Response, TextbookAnswer, Speed;
    var v := vs[|vs| - 1];
    if |vs| >= 2 {
      AsksForLaterTarget(p, vs);
    } else {
      FirstTarget(p, v.wanted - v.leaning, v.dt, v.leaning);
    }
  }

  function Sighted(angle: Axis, rate: Axis, v: Sight): (Axis, Axis) {
    (Advanced(angle, v.wanted - v.leaning, v.dt, v.leaning),
     Advanced(rate, Response(angle, v.wanted - v.leaning, v.dt, v.leaning) - v.turning, v.dt, v.turning))
  }

  function AfterSights(angle: Axis, rate: Axis, vs: seq<Sight>): (Axis, Axis) {
    if vs == [] then (angle, rate)
    else
      var (p, q) := AfterSights(angle, rate, vs[..|vs| - 1]);
      Sighted(p, q, vs[|vs| - 1])
  }

  lemma OneMoreFed(p: Axis, fs: seq<Fed>, f: Fed)
    ensures AfterFed(p, fs + [f]) == Advanced(AfterFed(p, fs), f.error, f.dt, f.measured)
  {
    hide Advanced;
    assert (fs + [f])[..|fs|] == fs;
  }

  lemma TurningLast(c: PidConfig, vs: seq<Sight>)
    requires vs != [] && Timed(vs) && c.outputMin <= c.outputMax
    ensures (var v := vs[|vs| - 1];
      Turning(c, vs) == Turning(c, vs[..|vs| - 1]) + [Fed(Target(c, vs) - v.turning, v.dt, v.turning)])
  {
  }

  lemma OneMoreSight(angle: Axis, rate: Axis, vs: seq<Sight>, p: Axis, q: Axis)
    requires vs != [] && AfterSights(angle, rate, vs[..|vs| - 1]) == (p, q)
    ensures AfterSights(angle, rate, vs) == Sighted(p, q, vs[|vs| - 1])
  {
  }

  lemma SightedIsFed(angle: Axis, rate: Axis, vs: seq<Sight>, p: Axis, q: Axis)
    requires angle == AtRest(angle) && angle.config.ki == 0.0 && vs != [] && Timed(vs)
    requires p == AfterFed(angle, Leaning(vs[..|vs| - 1])) && q == AfterFed(rate, Turning(angle.config, vs[..|vs| - 1]))
    ensures Sighted(p, q, vs[|vs| - 1]) == (AfterFed(angle, Leaning(vs)), AfterFed(rate, Turning(angle.config, vs)))
  {
    var v, before := vs[|vs| - 1], vs[..|vs| - 1];
    AsksForTarget(angle, vs);
    LeaningLast(vs);
    TurningLast(angle.config, vs);
    hide AfterFed, Leaning, Turning, Response, Advanced, Target, Running;
    OneMoreFed(angle, Leaning(before), LeanFed(v));
    OneMoreFed(rate, Turning(angle.config, before), Fed(Target(angle.config, vs) - v.turning, v.dt, v.turning));
  }

  /** The cascade is two axes in a row: the one fed with the lean, the other with what is missing to its target. */
  lemma {:induction false} SightsAreFed(angle: Axis, rate: Axis, vs: seq<Sight>)
    requires angle == AtRest(angle) && angle.config.ki == 0.0 && Timed(vs)
    ensures AfterSights(angle, rate, vs) == (AfterFed(angle, Leaning(vs)), AfterFed(rate, Turning(angle.config, vs)))
  {
    if vs != [] {
      hide AfterFed, Leaning, Turning, Sighted, AfterSights;
      var before := vs[..|vs| - 1];
      SightsAreFed(angle, rate, before);
      var p, q := AfterFed(angle, Leaning(before)), AfterFed(rate, Turning(angle.config, before));
      OneMoreSight(angle, rate, vs, p, q);
      SightedIsFed(angle, rate, vs, p, q);
    }
  }

  lemma AdvancedIsSighted(a: Axes, t: Sampled)
    ensures (var b := AxesAdvanced(a, t.sp, t.s, t.dt);
      && (b.rollAngle, b.rollRate) == Sighted(a.rollAngle, a.rollRate, RollSight(t))
      && (b.pitchAngle, b.pitchRate) == Sighted(a.pitchAngle, a.pitchRate, PitchSight(t))
      && b.yawRate == Advanced(a.yawRate, YawFed(t).error, YawFed(t).dt, YawFed(t).measured))
  {
    hide Response, Advanced;
  }

  lemma {:induction false} StepsAreSights(a: Axes, ts: seq<Sampled>)
    ensures (var b := AfterSteps(a, ts);
      && (b.rollAngle, b.rollRate) == AfterSights(a.rollAngle, a.rollRate, RollSights(ts))
      && (b.pitchAngle, b.pitchRate) == AfterSights(a.pitchAngle, a.pitchRate, PitchSights(ts))
      && b.yawRate == AfterFed(a.yawRate, YawFeds(ts)))
  {
    if ts != [] {
      hide Advanced, AxesAdvanced, Sighted, RollSight, PitchSight, YawFed;
      var before, t := ts[..|ts| - 1], ts[|ts| - 1];
      StepsAreSights(a, before);
      AdvancedIsSighted(AfterSteps(a, before), t);
      assert RollSights(ts)[..|RollSights(before)|] == RollSights(before);
      assert PitchSights(ts)[..|PitchSights(before)|] == PitchSights(before);
      assert YawFeds(ts)[..|YawFeds(before)|] == YawFeds(before);
    }
  }

  lemma ResponseIsCascade(a: Axes, t: Sampled)
    ensures (var q, v, u, f := AxesResponse(a, t.sp, t.s, t.dt), RollSight(t), PitchSight(t), YawFed(t);
      && q.roll == Response(a.rollRate, Response(a.rollAngle, v.wanted - v.leaning, v.dt, v.leaning) - v.turning,
                            v.dt, v.turning)
      && q.pitch == Response(a.pitchRate, Response(a.pitchAngle, u.wanted - u.leaning, u.dt, u.leaning) - u.turning,
                             u.dt, u.turning)
      && q.yaw == Response(a.yawRate, f.error, f.dt, f.measured))
  {
    hide Response;
  }

  /** The torque of one axis after a history of control steps from rest, by the textbook: the target from the lean and
      its growth, and the torque from what is missing to the target, from that over time, and from how fast the
      rotation itself has changed. */
  function TextbookTorque(angle: PidConfig, rate: PidConfig, vs: seq<Sight>): real
    requires |vs| >= 2 && Timed(vs) && angle.outputMin <= angle.outputMax && rate.outputMin <= rate.outputMax
  {
    var v := vs[|vs| - 1];
    TextbookAnswer(rate, Target(angle, vs) - v.turning, Area(Turning(angle, vs)),
                   Speed(v.turning, vs[|vs| - 2].turning, v.dt))
  }

  lemma SightsAreTextbook(angle: Axis, rate: Axis, vs: seq<Sight>, v: Sight)
    requires angle == AtRest(angle) && angle.config.ki == 0.0 && rate == AtRest(rate)
    requires vs != [] && Timed(vs + [v]) && Unsaturated(rate.config, Turning(angle.config, vs + [v]))
    ensures (var (p, q) := AfterSights(angle, rate, vs);
      Response(q, Response(p, v.wanted - v.leaning, v.dt, v.leaning) - v.turning, v.dt, v.turning)
        == TextbookTorque(angle.config, rate.config, vs + [v]))
  {
    hide Response, AfterFed, AfterSights, TextbookAnswer, Speed, Area, Unsaturated, Running, Target;
    var us := vs + [v];
    assert us[..|vs|] == vs;
    SightsAreFed(angle, rate, vs);
    AsksForTarget(angle, us);
    hide Leaning;
    var f := Fed(Target(angle.config, us) - v.turning, v.dt, v.turning);
    assert Turning(angle.config, us) == Turning(angle.config, vs) + [f];
    TextbookPid(rate, Turning(angle.config, vs), f);
  }

  lemma OneMoreStep(ts: seq<Sampled>, t: Sampled)
    ensures RollSights(ts + [t]) == RollSights(ts) + [RollSight(t)]
    ensures PitchSights(ts + [t]) == PitchSights(ts) + [PitchSight(t)]
    ensures YawFeds(ts + [t]) == YawFeds(ts) + [YawFed(t)]
  {
    assert (ts + [t])[..|ts|] == ts;
  }

  /** Roll or pitch of a cascade meets no integrator limit. */
  predicate Smooth(angle: PidConfig, rate: PidConfig, vs: seq<Sight>) {
    Timed(vs) && angle.outputMin <= angle.outputMax && Unsaturated(rate, Turning(angle, vs))
  }

  lemma RollIsTextbook(a: Axes, ts: seq<Sampled>, t: Sampled)
    requires a == AxesAtRest(a) && a.rollAngle.config.ki == 0.0 && ts != []
    requires Smooth(a.rollAngle.config, a.rollRate.config, RollSights(ts + [t]))
    ensures (AxesResponse(AfterSteps(a, ts), t.sp, t.s, t.dt).roll
      == TextbookTorque(a.rollAngle.config, a.rollRate.config, RollSights(ts + [t])))
  {
    OneMoreStep(ts, t);
    StepsAreSights(a, ts);
    ResponseIsCascade(AfterSteps(a, ts), t);
    hide AfterSteps, AxesResponse, AfterSights, Response, Turning, TextbookTorque, Unsaturated, Timed;
    hide RollSights, RollSight, PitchSights, PitchSight, YawFeds, YawFed;
    SightsAreTextbook(a.rollAngle, a.rollRate, RollSights(ts), RollSight(t));
  }

  lemma PitchIsTextbook(a: Axes, ts: seq<Sampled>, t: Sampled)
    requires a == AxesAtRest(a) && a.pitchAngle.config.ki == 0.0 && ts != []
    requires Smooth(a.pitchAngle.config, a.pitchRate.config, PitchSights(ts + [t]))
    ensures (AxesResponse(AfterSteps(a, ts), t.sp, t.s, t.dt).pitch
      == TextbookTorque(a.pitchAngle.config, a.pitchRate.config, PitchSights(ts + [t])))
  {
    OneMoreStep(ts, t);
    StepsAreSights(a, ts);
    ResponseIsCascade(AfterSteps(a, ts), t);
    hide AfterSteps, AxesResponse, AfterSights, Response, Turning, TextbookTorque, Unsaturated, Timed;
    hide RollSights, RollSight, PitchSights, PitchSight, YawFeds, YawFed;
    SightsAreTextbook(a.pitchAngle, a.pitchRate, PitchSights(ts), PitchSight(t));
  }

  /** The same of yaw, which has no angle axis. */
  function TextbookYaw(c: PidConfig, fs: seq<Fed>): real
    requires |fs| >= 2 && Running(fs) && c.outputMin <= c.outputMax
  {
    var f := fs[|fs| - 1];
    TextbookAnswer(c, f.error, Area(fs), Speed(f.measured, fs[|fs| - 2].measured, f.dt))
  }

  lemma YawIsTextbook(a: Axes, ts: seq<Sampled>, t: Sampled)
    requires a == AxesAtRest(a) && ts != []
    requires Running(YawFeds(ts + [t])) && Unsaturated(a.yawRate.config, YawFeds(ts + [t]))
    ensures AxesResponse(AfterSteps(a, ts), t.sp, t.s, t.dt).yaw == TextbookYaw(a.yawRate.config, YawFeds(ts + [t]))
  {
    OneMoreStep(ts, t);
    StepsAreSights(a, ts);
    ResponseIsCascade(AfterSteps(a, ts), t);
    hide AfterSteps, AxesResponse, AfterFed, Response, Unsaturated, Running, TextbookAnswer, Speed, Area;
    hide RollSights, RollSight, PitchSights, PitchSight, YawFeds, YawFed;
    TextbookPid(a.yawRate, YawFeds(ts), YawFed(t));
  }

  predicate Forward(ts: seq<Sampled>) { forall t :: t in ts ==> t.dt > 0.0 }

  /** A frame that is level and at rest, and meant to be. */
  predicate Level(t: Sampled) {
    && t.dt > 0.0 && t.sp.rollDeg == t.sp.pitchDeg == t.sp.yawRateDps == 0.0
    && t.s.rollDeg == t.s.pitchDeg == t.s.rollRateDps == t.s.pitchRateDps == t.s.yawRateDps == 0.0
  }

  predicate AllLevel(ts: seq<Sampled>) { ts != [] ==> Level(ts[|ts| - 1]) && AllLevel(ts[..|ts| - 1]) }

  predicate LevelSights(vs: seq<Sight>) {
    vs != [] ==>
      && vs[|vs| - 1].wanted == vs[|vs| - 1].leaning == vs[|vs| - 1].turning == 0.0 && vs[|vs| - 1].dt > 0.0
      && LevelSights(vs[..|vs| - 1])
  }

  lemma {:induction false} LevelSightsAreTimed(vs: seq<Sight>)
    requires LevelSights(vs)
    ensures Timed(vs)
  {
    if vs != [] {
      LevelSightsAreTimed(vs[..|vs| - 1]);
    }
  }

  lemma NoTarget(c: PidConfig, vs: seq<Sight>)
    requires vs != [] && LevelSights(vs) && Timed(vs) && c.outputMin <= 0.0 <= c.outputMax
    ensures Target(c, vs) == 0.0
  {
    var before := vs[..|vs| - 1];
    if before != [] {
      assert before[|before| - 1].leaning == 0.0 && vs[|vs| - 2] == before[|before| - 1];
    }
  }

  /** One more sample without error. */
  lemma NoMoreArea(c: PidConfig, fs: seq<Fed>, f: Fed)
    requires Area(fs) == 0.0 && Unsaturated(c, fs) && f.error == 0.0 && c.integratorMin <= 0.0 <= c.integratorMax
    ensures Area(fs + [f]) == 0.0 && Unsaturated(c, fs + [f])
  {
    assert (fs + [f])[..|fs|] == fs;
  }

  lemma {:induction false} LevelMeetsNoLimit(angle: PidConfig, rate: PidConfig, vs: seq<Sight>)
    requires LevelSights(vs) && angle.outputMin <= 0.0 <= angle.outputMax
    requires rate.integratorMin <= 0.0 <= rate.integratorMax
    ensures Timed(vs) && Area(Turning(angle, vs)) == 0.0 && Unsaturated(rate, Turning(angle, vs))
  {
    LevelSightsAreTimed(vs);
    if vs != [] {
      var before, v := vs[..|vs| - 1], vs[|vs| - 1];
      LevelMeetsNoLimit(angle, rate, before);
      NoTarget(angle, vs);
      TurningLast(angle, vs);
      hide Turning, Unsaturated, Target, Area;
      NoMoreArea(rate, Turning(angle, before), Fed(Target(angle, vs) - v.turning, v.dt, v.turning));
    }
  }

  lemma {:induction false} LevelSightsOfLevel(ts: seq<Sampled>)
    requires AllLevel(ts)
    ensures LevelSights(RollSights(ts)) && LevelSights(PitchSights(ts))
  {
    if ts != [] {
      var before := ts[..|ts| - 1];
      LevelSightsOfLevel(before);
      assert RollSights(ts)[..|before|] == RollSights(before);
      assert PitchSights(ts)[..|before|] == PitchSights(before);
    }
  }

  lemma {:induction false} LevelYaw(c: PidConfig, ts: seq<Sampled>)
    requires AllLevel(ts) && c.integratorMin <= 0.0 <= c.integratorMax
    ensures Area(YawFeds(ts)) == 0.0 && Unsaturated(c, YawFeds(ts))
  {
    if ts != [] {
      LevelYaw(c, ts[..|ts| - 1]);
      hide Area, Unsaturated;
      NoMoreArea(c, YawFeds(ts[..|ts| - 1]), YawFed(ts[|ts| - 1]));
    }
  }

  /** In level flight no integrator meets its limit. */
  lemma LevelIsSmooth(angle: PidConfig, rate: PidConfig, yaw: PidConfig, ts: seq<Sampled>)
    requires AllLevel(ts) && angle.outputMin <= 0.0 <= angle.outputMax
    requires rate.integratorMin <= 0.0 <= rate.integratorMax && yaw.integratorMin <= 0.0 <= yaw.integratorMax
    ensures Smooth(angle, rate, RollSights(ts)) && Smooth(angle, rate, PitchSights(ts)) && Unsaturated(yaw, YawFeds(ts))
  {
    hide LevelSights, AllLevel, Timed, Turning, Unsaturated, Area;
    LevelSightsOfLevel(ts);
    LevelMeetsNoLimit(angle, rate, RollSights(ts));
    LevelMeetsNoLimit(angle, rate, PitchSights(ts));
    LevelYaw(yaw, ts);
  }

  lemma {:induction false} SightsAreTimed(ts: seq<Sampled>)
    requires Forward(ts)
    ensures Timed(RollSights(ts)) && Timed(PitchSights(ts)) && Running(YawFeds(ts))
  {
    if ts != [] {
      var before := ts[..|ts| - 1];
      assert ts[|ts| - 1] in ts && Forward(before);
      SightsAreTimed(before);
      assert RollSights(ts)[..|before|] == RollSights(before);
      assert PitchSights(ts)[..|before|] == PitchSights(before);
      assert YawFeds(ts)[..|before|] == YawFeds(before);
    }
  }

  /** After any history of control steps from rest in which no integrator meets its limit, the three torques of the next
      step are those of the textbook, with these gains and limits. */
  lemma TorquesAreTextbook(
      c: FlightConfig, a: Axes, ts: seq<Sampled>, t: Sampled, angle: PidConfig, rate: PidConfig, yaw: PidConfig)
    requires a == AxesAtRest(AxesWithGains(INITIAL_AXES, Sane(c))) && ts != [] && Forward(ts + [t])
    requires angle == PidConfig(Sane(c).angleP, 0.0, 0.05, -50.0, 50.0, -220.0, 220.0)
    requires rate == PidConfig(Sane(c).rateP, Sane(c).rateI, Sane(c).rateD, -120.0, 120.0, -1.0, 1.0)
    requires yaw == rate.(integratorMin := -100.0, integratorMax := 100.0)
    requires Smooth(angle, rate, RollSights(ts + [t])) && Smooth(angle, rate, PitchSights(ts + [t]))
    requires Unsaturated(yaw, YawFeds(ts + [t]))
    ensures Running(YawFeds(ts + [t]))
    ensures (var q, us := AxesResponse(AfterSteps(a, ts), t.sp, t.s, t.dt), ts + [t];
      && q.roll == TextbookTorque(angle, rate, RollSights(us))
      && q.pitch == TextbookTorque(angle, rate, PitchSights(us))
      && q.yaw == TextbookYaw(yaw, YawFeds(us)))
  {
    RestingGains(c, a);
    hide AfterSteps, AxesResponse, RollSights, PitchSights, YawFeds, TextbookTorque, TextbookYaw, Sane;
    hide Smooth, Unsaturated, Running, AxesAtRest, AxesWithGains, Forward;
    SightsAreTimed(ts + [t]);
    RollIsTextbook(a, ts, t);
    PitchIsTextbook(a, ts, t);
    YawIsTextbook(a, ts, t);
  }

  predicate Within(us: real) { 1000.0 <= us <= 2000.0 }

  lemma RoundsDown(us: real)
    requires Within(us)
    ensures us - 1.0 < ClampPwm(us) as real <= us
  {
  }

  /** While no motor meets its bound, throttle and torques can be read back from the pulses up to rounding. */
  lemma MixReadsBack(throttle: real, pitch: real, roll: real, yaw: real)
    requires (var raw := RawPwm(throttle, pitch, roll, yaw);
      Within(raw.m1) && Within(raw.m2) && Within(raw.m3) && Within(raw.m4))
    ensures (var q := MixPwm(throttle, pitch, roll, yaw);
      && -4.0 < (q.lf + q.rf + q.rr + q.lb) as real - 4000.0 * (1.0 + throttle) <= 0.0
      && -2.0 < (q.lf - q.rf - q.rr + q.lb) as real - 1280.0 * pitch < 2.0
      && -2.0 < (-q.lf - q.rf + q.rr + q.lb) as real - 1280.0 * roll < 2.0
      && -2.0 < (-q.lf + q.rf - q.rr + q.lb) as real - 1280.0 * yaw < 2.0)
  {
    var raw, q := RawPwm(throttle, pitch, roll, yaw), MixPwm(throttle, pitch, roll, yaw);
    RoundsDown(raw.m1);
    RoundsDown(raw.m2);
    RoundsDown(raw.m3);
    RoundsDown(raw.m4);
    assert (q.lf - q.rf - q.rr + q.lb) as real == q.lf as real - q.rf as real - q.rr as real + q.lb as real;
  }

  /** So the pulses of a control step, while no motor meets its bound, carry the setpoint's throttle and the torques of
      the cascade, each on the motors that turn the frame that way. */
  lemma DrivenReadsBack(a: Axes, sp: ControlSetpoint, s: AttitudeState, dt: real)
    requires (var t := AxesResponse(a, sp, s, dt);
      var raw := RawPwm(sp.throttle, t.pitch, t.roll, t.yaw);
      Within(raw.m1) && Within(raw.m2) && Within(raw.m3) && Within(raw.m4))
    ensures (var q, t := Driven(a, sp, s, dt), AxesResponse(a, sp, s, dt);
      && -4.0 < (q.lf + q.rf + q.rr + q.lb) as real - 4000.0 * (1.0 + sp.throttle) <= 0.0
      && -2.0 < (q.lf - q.rf - q.rr + q.lb) as real - 1280.0 * t.pitch < 2.0
      && -2.0 < (-q.lf - q.rf + q.rr + q.lb) as real - 1280.0 * t.roll < 2.0
      && -2.0 < (-q.lf + q.rf - q.rr + q.lb) as real - 1280.0 * t.yaw < 2.0)
  {
    hide AxesResponse;
    var t := AxesResponse(a, sp, s, dt);
    MixReadsBack(sp.throttle, t.pitch, t.roll, t.yaw);
  }

  class Controller {
    const rollAngle: PidAxis
    const pitchAngle: PidAxis
    const rollRate: PidAxis
    const pitchRate: PidAxis
    const yawRate: PidAxis
    var setpoint: SaneSetpoint
    var armState: ArmState
    var activeConfig: FlightConfig

    ghost function Parts(): set<object> {
      {rollAngle, pitchAngle, rollRate, pitchRate, yawRate}
    }

    ghost function Value(): Axes
      reads Parts()
    {
      Axes(rollAngle.axis, pitchAngle.axis, rollRate.axis, pitchRate.axis, yawRate.axis)
    }

    /** The five axes are five objects. */
    ghost predicate Valid() {
      && rollAngle != pitchAngle && rollAngle != rollRate && rollAngle != pitchRate && rollAngle != yawRate
      && pitchAngle != rollRate && pitchAngle != pitchRate && pitchAngle != yawRate
      && rollRate != pitchRate && rollRate != yawRate && pitchRate != yawRate
    }

    constructor ()
      ensures Valid() && fresh(Parts())
      ensures armState == DISARMED && activeConfig == DEFAULT_CONFIG
      ensures setpoint == ControlSetpoint(0.0, 0.0, 0.0, 0.0)
      ensures Value() == AxesAtRest(AxesWithGains(INITIAL_AXES, DEFAULT_CONFIG))
    {
      rollAngle := new PidAxis(ANGLE_AXIS.config);
      pitchAngle := new PidAxis(ANGLE_AXIS.config);
      rollRate := new PidAxis(RATE_AXIS.config);
      pitchRate := new PidAxis(RATE_AXIS.config);
      yawRate := new PidAxis(YAW_AXIS.config);
      setpoint := ControlSetpoint(0.0, 0.0, 0.0, 0.0);
      armState := DISARMED;
      activeConfig := DEFAULT_CONFIG;
      new;
      ApplyConfig(activeConfig);
    }

    method SetSetpoint(sp: ControlSetpoint)
      modifies `setpoint
      ensures setpoint == Limited(sp)
      ensures Flyable(sp) ==> setpoint == sp
    {
      var limited := sp;
      limited := limited.(throttle := Clamp(limited.throttle, 0.0, 1.0));
      limited := limited.(rollDeg := Clamp(limited.rollDeg, -35.0, 35.0));
      limited := limited.(pitchDeg := Clamp(limited.pitchDeg, -35.0, 35.0));
      limited := limited.(yawRateDps := Clamp(limited.yawRateDps, -180.0, 180.0));
      setpoint := limited;
    }

    method ResetIntegrators()
      requires Valid()
      modifies Parts()
      ensures Value() == AxesAtRest(old(Value()))
    {
      rollAngle.Reset();
      pitchAngle.Reset();
      rollRate.Reset();
      pitchRate.Reset();
      yawRate.Reset();
    }

    /** Every change of the arm state starts the axes afresh. */
    method SetArmState(state: ArmState)
      requires Valid()
      modifies `armState, Parts()
      ensures armState == state
      ensures Value() == if state == old(armState) then old(Value()) else AxesAtRest(old(Value()))
    {
      if state == armState {
        return;
      }
      armState := state;
      ResetIntegrators();
    }

    method ApplyConfig(config: FlightConfig)
      requires Valid()
      modifies `activeConfig, Parts()
      ensures activeConfig == Sane(config)
      ensures Value() == AxesAtRest(AxesWithGains(old(Value()), activeConfig))
    {
      activeConfig := config;
      activeConfig := activeConfig.(angleP := Clamp(activeConfig.angleP, 0.5, 20.0));
      activeConfig := activeConfig.(rateP := Clamp(activeConfig.rateP, 0.01, 1.0));
      activeConfig := activeConfig.(rateI := Clamp(activeConfig.rateI, 0.0, 1.0));
      activeConfig := activeConfig.(rateD := Clamp(activeConfig.rateD, 0.0, 0.1));
      rollAngle.SetTunings(activeConfig.angleP, 0.0, 0.05);
      pitchAngle.SetTunings(activeConfig.angleP, 0.0, 0.05);
      rollRate.SetTunings(activeConfig.rateP, activeConfig.rateI, activeConfig.rateD);
      pitchRate.SetTunings(activeConfig.rateP, activeConfig.rateI, activeConfig.rateD);
      yawRate.SetTunings(activeConfig.rateP, activeConfig.rateI, activeConfig.rateD);
      ResetIntegrators();
    }

    method RunAxes(state: AttitudeState, dtS: real) returns (pitchOut: real, rollOut: real, yawOut: real)
      requires Valid()
      modifies Parts()
      ensures Torques(pitchOut, rollOut, yawOut) == AxesResponse(old(Value()), setpoint, state, dtS)
      ensures Value() == AxesAdvanced(old(Value()), setpoint, state, dtS)
    {
      var targetRollRate := rollAngle.Update(setpoint.rollDeg - state.rollDeg, dtS, state.rollDeg);
      var targetPitchRate := pitchAngle.Update(setpoint.pitchDeg - state.pitchDeg, dtS, state.pitchDeg);
      rollOut := rollRate.Update(targetRollRate - state.rollRateDps, dtS, state.rollRateDps);
      pitchOut := pitchRate.Update(targetPitchRate - state.pitchRateDps, dtS, state.pitchRateDps);
      yawOut := yawRate.Update(setpoint.yawRateDps - state.yawRateDps, dtS, state.yawRateDps);
    }

    method Update(state: AttitudeState, dtS: real) returns (pwm: MotorPwm)
      requires Valid()
      modifies Parts()
      ensures armState != ARMED ==> pwm == ALL_IDLE && Value() == old(Value())
      ensures armState == ARMED ==> pwm == Driven(old(Value()), setpoint, state, dtS)
      ensures armState == ARMED ==> Value() == AxesAdvanced(old(Value()), setpoint, state, dtS)
    {
      if armState != ARMED {
        return ALL_IDLE;
      }
      var pitchOut, rollOut, yawOut := RunAxes(state, dtS);
      pwm := MixPwm(setpoint.throttle, pitchOut, rollOut, yawOut);
    }
  }

  class Actuator {
    var lastPwm: MotorPwm

    constructor ()
      ensures lastPwm == ALL_IDLE
    {
      lastPwm := ALL_IDLE;
    }

    method Output(pwm: MotorPwm)
      modifies this
      ensures lastPwm == pwm
    {
      lastPwm := pwm;
    }

    method Stop()
      modifies this
      ensures lastPwm == ALL_IDLE
    {
      Output(ALL_IDLE);
    }
  }
}
