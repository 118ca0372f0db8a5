/** The intended replacement of the last stage of the bring-up loop, and when it does the same. */
module Stage3 {
  import opened Numbers
  import opened Options
  import opened Mixer
  import opened FlightLoop
  import opened FlightRuns

  /** Which PWM block and channel drives each motor: as the actuator lists them motor by motor, and as it
      keeps them in two tables. */
  const MOTOR_PWM_ID := Quad(1, 1, 1, 1)
  const MOTOR_CHANNEL := Quad(3, 1, 0, 2)
  const PWM_ID_MAP := Quad(1, 1, 1, 1)
  const PWM_CHANNEL_MAP := Quad(3, 1, 0, 2)

  datatype Input = Input(
    mix: Quad, rcValid: bool, sensorReady: bool, armed: bool, outputEnabled: bool, emergencyLatched: bool)

  datatype Output = Output(motor: Quad, safeForced: bool, mapOk: bool, steps: nat)

  datatype Status = Status(requested: Quad, output: Quad, safeForced: bool, mapOk: bool)

  function Put(q: Quad, motor: nat, us: int): Quad
    requires motor < 4
  {
    if motor == 0 then q.(lf := us) else if motor == 1 then q.(rf := us)
    else if motor == 2 then q.(rr := us) else q.(lb := us)
  }

  /** A motor is spun up as soon as its own mix asks for more than idle; the collective is not consulted. */
  function SpunUp(motor: nat, us: int): int
    requires motor < 4
  {
    var trimmed := us + TRIM_US.At(motor);
    Tested(if us > IDLE_US then Max(trimmed, MIN_SPIN_US.At(motor)) else trimmed)
  }

  function AllSpunUp(mix: Quad): Quad {
    Quad(SpunUp(0, mix.lf), SpunUp(1, mix.rf), SpunUp(2, mix.rr), SpunUp(3, mix.lb))
  }

  predicate Allowed(i: Input) {
    i.armed && i.outputEnabled && i.rcValid && i.sensorReady && !i.emergencyLatched
  }

  function Pulses(i: Input): Quad {
    if Allowed(i) then AllSpunUp(i.mix) else ALL_IDLE
  }

  /** The stage is idle exactly when something forbids it to turn the motors: even an idle mix is trimmed otherwise, and
      a motor whose mix is above idle turns at its slowest spinning pulse or faster. */
  lemma IdleExactly(i: Input)
    requires i.mix.lf >= 1000
    ensures (Pulses(i) == ALL_IDLE
      <==> !i.armed || !i.outputEnabled || !i.rcValid || !i.sensorReady || i.emergencyLatched)
    ensures Pulses(i) != ALL_IDLE ==>
      && (i.mix.lf > 1000 ==> Pulses(i).lf >= 1220) && (i.mix.rf > 1000 ==> Pulses(i).rf >= 1235)
      && (i.mix.rr > 1000 ==> Pulses(i).rr >= 1220) && (i.mix.lb > 1000 ==> Pulses(i).lb >= 1220)
  {
  }

  class ActuatorDuoPwm {
    var status: Status

    constructor ()
      ensures status == Status(ALL_IDLE, ALL_IDLE, true, false)
    {
      status := Status(ALL_IDLE, ALL_IDLE, true, false);
    }

    static method MapMatchesBringUp() returns (ok: bool)
      ensures ok == (MOTOR_PWM_ID == PWM_ID_MAP == Quad(1, 1, 1, 1)
        && MOTOR_CHANNEL == PWM_CHANNEL_MAP == Quad(3, 1, 0, 2))
      ensures ok
    {
      for m := 0 to 4
      {
        if MOTOR_PWM_ID.At(m) != PWM_ID_MAP.At(m) || MOTOR_CHANNEL.At(m) != PWM_CHANNEL_MAP.At(m) {
          return false;
        }
      }
      return PWM_ID_MAP == Quad(1, 1, 1, 1) && PWM_CHANNEL_MAP == Quad(3, 1, 0, 2);
    }

    static method ApplyTrimAndMinSpin(motor: nat, mix: int) returns (us: int)
      ensures us == if motor < 4 then SpunUp(motor, mix) else IDLE_US
    {
      if motor >= 4 {
        return IDLE_US;
      }
      us := mix + TRIM_US.At(motor);
      if mix > IDLE_US && us < MIN_SPIN_US.At(motor) {
        us := MIN_SPIN_US.At(motor);
      }
      if us < IDLE_US {
        return IDLE_US;
      }
      if us > TEST_MAX_US {
        return TEST_MAX_US;
      }
    }

    method Update(mix: Quad, allowed: bool, rcValid: bool, sensorReady: bool, emergencyLatched: bool)
      modifies this
      ensures status.requested == mix && status.mapOk
      ensures status.safeForced == !Allowed(Input(mix, rcValid, sensorReady, allowed, true, emergencyLatched))
      ensures status.output == Pulses(Input(mix, rcValid, sensorReady, allowed, true, emergencyLatched))
    {
      status := status.(requested := mix);
      var ok := MapMatchesBringUp();
      status := status.(mapOk := ok);
      status := status.(safeForced := !allowed || !rcValid || !sensorReady || emergencyLatched);
      if status.safeForced {
        status := status.(output := ALL_IDLE);
        return;
      }
      for m := 0 to 4
        invariant status.requested == mix && status.mapOk && !status.safeForced
        invariant forall k :: 0 <= k < m ==> status.output.At(k) == SpunUp(k, mix.At(k))
      {
        var us := ApplyTrimAndMinSpin(m, mix.At(m));
        status := status.(output := Put(status.output, m, us));
      }
      assert forall k :: 0 <= k < 4 ==> status.output.At(k) == SpunUp(k, mix.At(k));
      assert status.output.At(0) == SpunUp(0, mix.lf) && status.output.At(1) == SpunUp(1, mix.rf);
      assert status.output.At(2) == SpunUp(2, mix.rr) && status.output.At(3) == SpunUp(3, mix.lb);
    }
  }

  class FlightRtNodeStage3 {
    const actuator: ActuatorDuoPwm
    var lastOutput: Output
    var stepCount: nat

    constructor ()
      ensures fresh(actuator) && stepCount == 0
      ensures lastOutput == Output(ALL_IDLE, true, false, 0)
    {
      actuator := new ActuatorDuoPwm();
      lastOutput := Output(ALL_IDLE, true, false, 0);
      stepCount := 0;
    }

    /** A step answers from its input alone, whatever came before. */
    method Step(i: Input) returns (out: Output)
      modifies this, actuator
      ensures out == lastOutput == Output(Pulses(i), !Allowed(i), true, old(stepCount) + 1)
      ensures stepCount == old(stepCount) + 1
    {
      stepCount := stepCount + 1;
      var allowed := i.armed && i.outputEnabled && i.rcValid && i.sensorReady;
      actuator.Update(i.mix, allowed, i.rcValid, i.sensorReady, i.emergencyLatched);
      lastOutput := Output(actuator.status.output, actuator.status.safeForced, actuator.status.mapOk, stepCount);
      out := lastOutput;
    }
  }

  // ---------- Agreement with the bring-up loop ----------

  /** What the new stage would be handed after a poll. */
  function InputAfter(s: Flight): Input
    requires Tuned(s.tuning)
  {
    Input(if s.enabled then MixNow(s.rc, s.body, s.tuning) else ALL_IDLE,
          s.rc.valid, s.body.ready, s.enabled, s.enabled, s.emergency.latched)
  }

  lemma EnabledIsAllowed(hz: Hz, run: seq<Inputs>, trace: seq<Flight>, n: nat)
    requires IsRun(hz, run, trace) && n <= |run|
    ensures (trace[n].enabled ==>
      trace[n].rc.valid && trace[n].body.ready && !trace[n].emergency.latched && trace[n].rc.throttle <= KILL_US)
  {
    if n > 0 {
      assert Polls(hz, run, trace, n - 1);
    }
  }

  lemma MotorsAgree(mix: Quad, collective: int)
    requires mix.lf > IDLE_US && mix.rf > IDLE_US && mix.rr > IDLE_US && mix.lb > IDLE_US
    requires collective >= ACTIVE_MIN_US
    ensures AllSpunUp(mix) == AllTrimmed(mix, collective)
  {
  }

  lemma MotorsDiffer(motor: nat, us: int, throttle: int)
    requires motor < 4 && IDLE_US <= us <= 1120 && throttle <= IDLE_US
    ensures SpunUp(motor, us) == Trimmed(motor, us, throttle) <==> us == IDLE_US
  {
  }

  function Lifted(lift: int): int { Tested(IDLE_US + lift) }

  lemma MixAtRest(throttle: U16, q: Torque, lf: int, rf: int, rr: int, lb: int)
    requires throttle <= IDLE_US
    requires lf == q.pitch + q.roll - q.yaw && rf == q.pitch - q.roll + q.yaw
    requires rr == -q.pitch - q.roll - q.yaw && lb == -q.pitch + q.roll + q.yaw
    ensures Mix(throttle, q) == Quad(Lifted(lf), Lifted(rf), Lifted(rr), Lifted(lb))
  {
    assert Tested(throttle) == IDLE_US;
  }

  /** The four lifts add up to nothing, so if none is positive all are zero. */
  lemma NoLiftMeansNoTorque(q: Torque)
    ensures (q == NO_TORQUE <==>
      && q.pitch + q.roll - q.yaw <= 0 && q.pitch - q.roll + q.yaw <= 0
      && -q.pitch - q.roll - q.yaw <= 0 && -q.pitch + q.roll + q.yaw <= 0)
  {
  }

  lemma LiftedExactly(lift: int)
    requires -120 <= lift <= 120
    ensures IDLE_US <= Lifted(lift) <= 1120
    ensures Lifted(lift) == IDLE_US <==> lift <= 0
  {
  }

  /** Without a collective, some motor is lifted above idle exactly when there is any torque at all. */
  lemma AtRest(throttle: U16, q: Torque)
    requires throttle <= IDLE_US && Small(q)
    ensures ActiveThrottle(throttle) == throttle
    ensures (var mix := Mix(throttle, q);
      && IDLE_US <= mix.lf <= 1120 && IDLE_US <= mix.rf <= 1120
      && IDLE_US <= mix.rr <= 1120 && IDLE_US <= mix.lb <= 1120
      && (mix == ALL_IDLE <==> q == NO_TORQUE))
  {
    var lf, rf, rr, lb := q.pitch + q.roll - q.yaw, q.pitch - q.roll + q.yaw,
                          -q.pitch - q.roll - q.yaw, -q.pitch + q.roll + q.yaw;
    MixAtRest(throttle, q, lf, rf, rr, lb);
    LiftedExactly(lf);
    LiftedExactly(rf);
    LiftedExactly(rr);
    LiftedExactly(lb);
    NoLiftMeansNoTorque(q);
  }

  lemma StagesAgreeExactly(throttle: U16, q: Torque)
    requires throttle <= KILL_US && Small(q)
    ensures (AllSpunUp(Mix(ActiveThrottle(throttle), q)) == Shaped(throttle, q) <==>
      throttle > IDLE_US || q == NO_TORQUE)
  {
    var mix := Mix(ActiveThrottle(throttle), q);
    if throttle > IDLE_US {
      MixerNeverSaturates(throttle, q);
      MotorsAgree(mix, ActiveThrottle(throttle));
    } else {
      AtRest(throttle, q);
      MotorsDiffer(0, mix.lf, throttle);
      MotorsDiffer(1, mix.rf, throttle);
      MotorsDiffer(2, mix.rr, throttle);
      MotorsDiffer(3, mix.lb, throttle);
    }
  }

  /** After every poll of every run the new stage forces the safe pulses exactly when the loop does, and gives
      the same four pulses exactly when the loop is safe, or the throttle is off its rest, or no torque is
      asked for. The remaining case is a motor that its torque alone lifts above idle: the loop leaves it
      just above idle, the new stage spins it up. */
  lemma Stage3AgreesExactly(hz: Hz, run: seq<Inputs>, trace: seq<Flight>, n: nat)
    requires IsRun(hz, run, trace) && n <= |run|
    ensures Tuned(trace[n].tuning)
    ensures Allowed(InputAfter(trace[n])) <==> trace[n].enabled
    ensures (Pulses(InputAfter(trace[n])) == trace[n].pwm <==>
      || !trace[n].enabled
      || trace[n].rc.throttle > IDLE_US
      || TorqueNow(trace[n].rc, trace[n].body, trace[n].tuning) == NO_TORQUE)
  {
    AlwaysDrives(hz, run, trace, n);
    EnabledIsAllowed(hz, run, trace, n);
    var s := trace[n];
    if s.enabled {
      StagesAgreeExactly(s.rc.throttle, TorqueNow(s.rc, s.body, s.tuning));
    }
  }

  /** A run in which the stages differ: low switch, then an arming poll with the throttle at rest and full roll. */
  lemma StagesDiffer() returns (run: seq<Inputs>, trace: seq<Flight>)
    ensures IsRun(1000, run, trace) && |run| == 2
    ensures trace[2].enabled && trace[2].rc.throttle == 1000 && Tuned(trace[2].tuning)
    ensures Pulses(InputAfter(trace[2])) != trace[2].pwm
  {
    var low, roll := Sticks(1500, 1500, 1000, 1500, 1000), Sticks(2000, 1500, 1000, 1500, 2000);
    run := [Inputs(1000, [Frame(low, 1000)], LEVEL, None, 1000, 1000),
            Inputs(1010, [Frame(roll, 1010)], LEVEL, None, 1010, 1010)];
    trace := RunsExist(1000, run);
    assert Polls(1000, run, trace, 0) && Polls(1000, run, trace, 1);
    assert trace[1].gate == Gate(true, false, false) && trace[1].body == LEVEL;
    Stage3AgreesExactly(1000, run, trace, 2);
    SticksTurnTheFrame(trace[2].rc, trace[2].tuning);
  }
}
