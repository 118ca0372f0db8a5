/** The formal RT node: what its commands, its receiver and its timeouts do to the arm state, and the
    phase-locked schedule of its control steps. */
module RtNode {
  import opened Numbers
  import opened Options
  import opened Protocol
  import opened Estimator
  import opened RtControl
  import opened Mixer
  import Ibus

  const STEP_US := 2500
  const SETPOINT_TIMEOUT_US := 300_000
  const HEARTBEAT_TIMEOUT_US := 500_000
  const RECEIVER_TIMEOUT_US := 120_000

  // ---------- One cycle, on values ----------

  /** What a cycle carries over to the next, apart from the motors, the filters and the receiver's octets. */
  datatype Node = Node(
    arm: ArmState, setpoint: SaneSetpoint, config: FlightConfig, settings: (nat, real),
    lastSetpointUs: nat, lastHeartbeatUs: nat)

  /** What a cycle learned: the command and whether the transport answered, the receiver's sample, whether the
      receiver still had its link at the safety check, three clock readings, and whether a due sample failed. */
  datatype Cycle = Cycle(
    polled: bool, command: IncomingCommand, sample: Ibus.Sample, link: bool, nowUs: nat, safetyUs: nat,
    sensorFailed: bool)

  function Failed(n: Node): Node {
    n.(arm := FAILSAFE)
  }

  function Wanted(s: CommandSetpoint): ControlSetpoint {
    ControlSetpoint(s.throttle, s.rollDeg, s.pitchDeg, s.yawRateDps)
  }

  function Commanded(n: Node, c: IncomingCommand, nowUs: nat): Node {
    if c.emergencyStop then Failed(n)
    else
      Node(if c.arm.Some? then c.arm.value.state else n.arm,
           if c.setpoint.Some? then Limited(Wanted(c.setpoint.value)) else n.setpoint,
           if c.config.Some? then Sane(c.config.value) else n.config,
           if c.config.Some? then Ibus.ReceiverSettings(c.config.value) else n.settings,
           if c.setpoint.Some? then nowUs else n.lastSetpointUs,
           if c.heartbeat.Some? then nowUs else n.lastHeartbeatUs)
  }

  /** A pulse of 1000 to 2000 us, stretched linearly onto a range; outside pulses count as the nearer end. */
  function MapChannelUs(us: nat, lo: real, hi: real): real {
    lo + Portion((Clamp(us as real, 1000.0, 2000.0) - 1000.0) / 1000.0, hi - lo)
  }

  function Steered(c: Ibus.Channels): ControlSetpoint {
    ControlSetpoint(MapChannelUs(c[2], 0.0, 1.0), MapChannelUs(c[0], -30.0, 30.0),
                    MapChannelUs(c[1], -30.0, 30.0), MapChannelUs(c[3], -150.0, 150.0))
  }

  lemma MapChannelRange(us: nat, lo: real, hi: real)
    requires lo <= hi
    ensures lo <= MapChannelUs(us, lo, hi) <= hi
    ensures us <= 1000 ==> MapChannelUs(us, lo, hi) == lo
    ensures us >= 2000 ==> MapChannelUs(us, lo, hi) == hi
  {
    var ratio := (Clamp(us as real, 1000.0, 2000.0) - 1000.0) / 1000.0;
    Signs(ratio, hi - lo);
    Signs(1.0 - ratio, hi - lo);
    assert (1.0 - ratio) * (hi - lo) == (hi - lo) - ratio * (hi - lo);
  }

  /** What the sticks can ask for is within what the controller accepts, so its limits never touch it. */
  lemma SticksAreNeverLimited(c: Ibus.Channels)
    ensures Limited(Steered(c)) == Steered(c)
    ensures c[0] >= 2000 ==> Steered(c).rollDeg == 30.0
    ensures c[1] >= 2000 ==> Steered(c).pitchDeg == 30.0
    ensures c[2] >= 2000 ==> Steered(c).throttle == 1.0
    ensures c[3] >= 2000 ==> Steered(c).yawRateDps == 150.0
  {
    MapChannelRange(c[2], 0.0, 1.0);
    MapChannelRange(c[0], -30.0, 30.0);
    MapChannelRange(c[1], -30.0, 30.0);
    MapChannelRange(c[3], -150.0, 150.0);
  }

  lemma InRangeExactly(us: nat, lo: real, hi: real)
    requires 1000 <= us <= 2000
    ensures MapChannelUs(us, lo, hi) == lo + Portion((us as real - 1000.0) / 1000.0, hi - lo)
  {
  }

  /** Between its ends each stick asks in proportion: 30 degrees for 500 us off the middle in roll and pitch, 150
      degrees a second in yaw, and full throttle for 1000 us above rest; beyond them it asks for no more. */
  lemma SticksExactly(c: Ibus.Channels)
    ensures (1000 <= c[0] <= 2000 ==> Steered(c).rollDeg == 0.06 * (c[0] as real - 1500.0))
    ensures (1000 <= c[1] <= 2000 ==> Steered(c).pitchDeg == 0.06 * (c[1] as real - 1500.0))
    ensures (1000 <= c[2] <= 2000 ==> Steered(c).throttle == 0.001 * (c[2] as real - 1000.0))
    ensures (1000 <= c[3] <= 2000 ==> Steered(c).yawRateDps == 0.3 * (c[3] as real - 1500.0))
    ensures (c[0] <= 1000 ==> Steered(c).rollDeg == -30.0) && (c[0] >= 2000 ==> Steered(c).rollDeg == 30.0)
    ensures (c[1] <= 1000 ==> Steered(c).pitchDeg == -30.0) && (c[1] >= 2000 ==> Steered(c).pitchDeg == 30.0)
    ensures (c[2] <= 1000 ==> Steered(c).throttle == 0.0) && (c[2] >= 2000 ==> Steered(c).throttle == 1.0)
    ensures (c[3] <= 1000 ==> Steered(c).yawRateDps == -150.0) && (c[3] >= 2000 ==> Steered(c).yawRateDps == 150.0)
  {
    MapChannelRange(c[0], -30.0, 30.0);
    MapChannelRange(c[1], -30.0, 30.0);
    MapChannelRange(c[2], 0.0, 1.0);
    MapChannelRange(c[3], -150.0, 150.0);
    hide MapChannelUs;
    if 1000 <= c[0] <= 2000 { InRangeExactly(c[0], -30.0, 30.0); }
    if 1000 <= c[1] <= 2000 { InRangeExactly(c[1], -30.0, 30.0); }
    if 1000 <= c[2] <= 2000 { InRangeExactly(c[2], 0.0, 1.0); }
    if 1000 <= c[3] <= 2000 { InRangeExactly(c[3], -150.0, 150.0); }
  }

  predicate SwitchHigh(s: Ibus.Sample) { s.channels[4] > 1500 }

  predicate ThrottleLow(s: Ibus.Sample) { s.channels[2] <= 1100 }

  function ArmAfterReceiver(arm: ArmState, s: Ibus.Sample): ArmState {
    if arm == DISARMED && SwitchHigh(s) && ThrottleLow(s) then ARMED
    else if arm == ARMED && !SwitchHigh(s) then DISARMED
    else arm
  }

  function Received(n: Node, s: Ibus.Sample, nowUs: nat): Node {
    if s.failsafeSwitch then Failed(n)
    else if !s.linkOk then n
    else n.(arm := ArmAfterReceiver(n.arm, s), setpoint := Limited(Steered(s.channels)), lastSetpointUs := nowUs)
  }

  predicate Overdue(n: Node, link: bool, nowUs: nat) {
    || Ibus.Elapsed64(nowUs, n.lastSetpointUs) > SETPOINT_TIMEOUT_US
    || (n.lastHeartbeatUs != 0 && Ibus.Elapsed64(nowUs, n.lastHeartbeatUs) > HEARTBEAT_TIMEOUT_US)
    || !link
  }

  function Checked(n: Node, link: bool, nowUs: nat): Node {
    if n.arm == ARMED && Overdue(n, link, nowUs) then Failed(n) else n
  }

  /** A transport that does not answer is failsafe, but an arm slot in the command can still lift it. */
  function Answered(n: Node, polled: bool, command: IncomingCommand, nowUs: nat): Node {
    Commanded(if polled then n else Failed(n), command, nowUs)
  }

  /** The cycle up to its control step. */
  function Attended(n: Node, c: Cycle): Node {
    Checked(Received(Answered(n, c.polled, c.command, c.nowUs), c.sample, c.nowUs), c.link, c.safetyUs)
  }

  function AfterCycle(n: Node, c: Cycle): Node {
    if c.sensorFailed then Failed(Attended(n, c)) else Attended(n, c)
  }

  // ---------- What that does to the axes and to the motors ----------

  /** The five axes, and the pulses that the motors have. */
  datatype Motors = Motors(axes: Axes, pwm: MotorPwm)

  /** A change of the arm state starts the axes afresh. */
  function Switched(m: Motors, from: ArmState, to: ArmState): Motors {
    if from == to then m else m.(axes := AxesAtRest(m.axes))
  }

  function Halted(m: Motors, from: ArmState): Motors {
    Switched(m, from, FAILSAFE).(pwm := ALL_IDLE)
  }

  function MotorsSwitched(m: Motors, from: ArmState, c: IncomingCommand): Motors {
    if c.arm.None? then m
    else if c.arm.value.state == ARMED then Switched(m, from, ARMED)
    else Switched(m, from, c.arm.value.state).(pwm := ALL_IDLE)
  }

  function MotorsCommanded(m: Motors, from: ArmState, c: IncomingCommand): Motors {
    if c.emergencyStop then Halted(m, from)
    else
      var switched := MotorsSwitched(m, from, c);
      if c.config.None? then switched
      else switched.(axes := AxesAtRest(AxesWithGains(switched.axes, Sane(c.config.value))))
  }

  function MotorsReceived(m: Motors, from: ArmState, s: Ibus.Sample): Motors {
    if s.failsafeSwitch then Halted(m, from)
    else if !s.linkOk then m
    else
      var to := ArmAfterReceiver(from, s);
      if to == DISARMED && from != to then Switched(m, from, to).(pwm := ALL_IDLE) else Switched(m, from, to)
  }

  function MotorsChecked(m: Motors, n: Node, link: bool, nowUs: nat): Motors {
    if n.arm == ARMED && Overdue(n, link, nowUs) then Halted(m, ARMED) else m
  }

  function MotorsAnswered(m: Motors, n: Node, polled: bool, command: IncomingCommand): Motors {
    if polled then MotorsCommanded(m, n.arm, command) else MotorsCommanded(Halted(m, n.arm), FAILSAFE, command)
  }

  /** After the cycle up to its control step. */
  function MotorsAttended(m: Motors, n: Node, c: Cycle): Motors {
    var answered := Answered(n, c.polled, c.command, c.nowUs);
    var received := Received(answered, c.sample, c.nowUs);
    MotorsChecked(MotorsReceived(MotorsAnswered(m, n, c.polled, c.command), answered.arm, c.sample),
                  received, c.link, c.safetyUs)
  }

  /** The control step that is due, on sound sensors. */
  function MotorsDriven(m: Motors, n: Node, state: AttitudeState, dt: real): Motors {
    if n.arm != ARMED then m.(pwm := ALL_IDLE)
    else Motors(AxesAdvanced(m.axes, n.setpoint, state, dt), Driven(m.axes, n.setpoint, state, dt))
  }

  // ---------- Leaving failsafe, and arming ----------

  /** The receiver always reports a lost link as failsafe. */
  predicate Honest(c: Cycle) { c.sample.linkOk || c.sample.failsafeSwitch }

  /** The command asks for the given arm state, and is not an emergency. */
  predicate Asks(c: IncomingCommand, arm: ArmState) {
    !c.emergencyStop && c.arm.Some? && c.arm.value.state == arm
  }

  /** Nothing in the rest of the cycle forces failsafe. */
  predicate Sound(n: Node, c: Cycle) {
    && !c.command.emergencyStop && !c.sample.failsafeSwitch && c.sample.linkOk && !c.sensorFailed
    && !Overdue(Received(Commanded(n, c.command, c.nowUs), c.sample, c.nowUs), c.link, c.safetyUs)
  }

  /** A cycle ends armed exactly when the switch is up, nothing forces failsafe, and either the mailbox asks
      for it, or the node was armed already, or it was disarmed and the throttle is low. */
  lemma ArmedExactly(n: Node, c: Cycle)
    requires Honest(c)
    ensures (AfterCycle(n, c).arm == ARMED <==>
      && Sound(n, c) && SwitchHigh(c.sample)
      && (|| Asks(c.command, ARMED)
          || (c.command.arm.None? && c.polled && n.arm == ARMED)
          || (ThrottleLow(c.sample)
              && if c.command.arm.Some? then Asks(c.command, DISARMED) else c.polled && n.arm == DISARMED)))
  {
  }

  /** So arming at a throttle above 1100 us happens, and only by mailbox: the low throttle that arming is
      documented to need is checked on the receiver's path alone. */
  lemma HighThrottleArmsExactly(n: Node, c: Cycle)
    requires Honest(c) && n.arm != ARMED && !ThrottleLow(c.sample)
    ensures AfterCycle(n, c).arm == ARMED <==> Asks(c.command, ARMED) && Sound(n, c) && SwitchHigh(c.sample)
  {
    ArmedExactly(n, c);
  }

  /** From failsafe a cycle gets away exactly by a mailbox arm slot, in a cycle that does not fail again. */
  lemma LeavesFailsafeExactly(n: Node, c: Cycle)
    requires Honest(c) && n.arm == FAILSAFE
    ensures (AfterCycle(n, c).arm != FAILSAFE <==>
      && !c.command.emergencyStop && c.command.arm.Some? && c.command.arm.value.state != FAILSAFE
      && !c.sample.failsafeSwitch && !c.sensorFailed
      && (ArmAfterReceiver(c.command.arm.value.state, c.sample) == ARMED ==> Sound(n, c)))
  {
  }

  /** At the safety check the setpoint, the last heartbeat if there ever was one, or the last frame is too old. */
  predicate Late(n: Node, c: Cycle) {
    var beat := if c.command.heartbeat.Some? then c.nowUs else n.lastHeartbeatUs;
    || Ibus.Elapsed64(c.safetyUs, c.nowUs) > 300_000
    || (beat != 0 && Ibus.Elapsed64(c.safetyUs, beat) > 500_000)
    || !c.link
  }

  /** The arm state after a cycle, in full. An unknown state from the mailbox stays until the next. */
  lemma ArmStateExactly(n: Node, c: Cycle)
    requires Honest(c)
    ensures (var wish := if c.command.arm.Some? then c.command.arm.value.state
                         else if c.polled then n.arm else FAILSAFE;
      var high, low := c.sample.channels[4] > 1500, c.sample.channels[2] <= 1100;
      AfterCycle(n, c).arm
        == if c.command.emergencyStop || c.sample.failsafeSwitch || c.sensorFailed then FAILSAFE
           else if wish != ARMED && wish != DISARMED then wish
           else if high && (wish == ARMED || low) then (if Late(n, c) then FAILSAFE else ARMED)
           else DISARMED)
  {
    hide Limited, Steered, Sane;
  }

  /** The setpoint after a cycle: what the sticks ask for, unless the receiver is in failsafe; then what the mailbox
      asks for, within the limits, which no motor follows. */
  lemma SetpointExactly(n: Node, c: Cycle)
    requires Honest(c)
    ensures !c.sample.failsafeSwitch ==>
      AfterCycle(n, c).setpoint == Steered(c.sample.channels) && AfterCycle(n, c).lastSetpointUs == c.nowUs
    ensures c.sample.failsafeSwitch ==> AfterCycle(n, c).arm == FAILSAFE
    ensures (c.sample.failsafeSwitch && !c.command.emergencyStop && c.command.setpoint.Some? ==>
      var s, wanted := AfterCycle(n, c).setpoint, c.command.setpoint.value;
      && AfterCycle(n, c).lastSetpointUs == c.nowUs
      && s.throttle == Clamp(wanted.throttle, 0.0, 1.0) && s.rollDeg == Clamp(wanted.rollDeg, -35.0, 35.0)
      && s.pitchDeg == Clamp(wanted.pitchDeg, -35.0, 35.0)
      && s.yawRateDps == Clamp(wanted.yawRateDps, -180.0, 180.0))
    ensures c.sample.failsafeSwitch && (c.command.emergencyStop || c.command.setpoint.None?) ==>
      AfterCycle(n, c).setpoint == n.setpoint && AfterCycle(n, c).lastSetpointUs == n.lastSetpointUs
  {
    hide Steered, Sane, Overdue, ArmAfterReceiver, Clamp;
    SticksAreNeverLimited(c.sample.channels);
  }

  // ---------- The schedule of the control steps ----------

  /** The last control time, the next due time, and the intervals between control steps so far. */
  datatype Times = Times(last: nat, due: nat, steps: seq<int>)

  /** The due time is always ahead of the last. */
  type Schedule = t: Times | t.last < t.due witness Times(0, 1, [])

  function Started(bootUs: nat): Schedule { Times(bootUs, bootUs + STEP_US, []) }

  /** The first point of the grid that is still ahead. */
  function NextDue(due: nat, now: nat): nat
    requires due <= now
  {
    due + ((now - due) / STEP_US + 1) * STEP_US
  }

  lemma NextDueIsAhead(due: nat, now: nat)
    requires due <= now
    ensures now < NextDue(due, now) <= now + STEP_US && NextDue(due, now) >= due + STEP_US
  {
  }

  function Ticked(s: Schedule, now: nat): Schedule {
    if now < s.due then s
    else
      NextDueIsAhead(s.due, now);
      Times(now, NextDue(s.due, now), s.steps + [now - s.last])
  }

  function Sum(steps: seq<int>): int {
    if steps == [] then 0 else Sum(steps[..|steps| - 1]) + steps[|steps| - 1]
  }

  /** The due time is on the grid of the boot time, ahead of the last step but by at most one period; the
      intervals are positive and add up to the time since boot; and steps never crowd the grid. */
  ghost predicate InPhase(bootUs: nat, s: Schedule) {
    && (s.due - bootUs) % STEP_US == 0
    && s.last < s.due <= s.last + STEP_US
    && bootUs + Sum(s.steps) == s.last
    && (forall i :: 0 <= i < |s.steps| ==> s.steps[i] > 0)
    && STEP_US * |s.steps| <= s.last - bootUs
    && STEP_US * (|s.steps| + 1) <= s.due - bootUs
  }

  lemma GridStep(bootUs: nat, due: nat, now: nat)
    requires due <= now && bootUs <= due && (due - bootUs) % STEP_US == 0
    ensures (NextDue(due, now) - bootUs) % STEP_US == 0
  {
    var k := (now - due) / STEP_US + 1;
    assert NextDue(due, now) - bootUs == (due - bootUs) + k * STEP_US;
  }

  lemma TickKeepsPhase(bootUs: nat, s: Schedule, now: nat)
    requires InPhase(bootUs, s)
    ensures InPhase(bootUs, Ticked(s, now))
    ensures now < Ticked(s, now).due
  {
    var t := Ticked(s, now);
    if now >= s.due {
      NextDueIsAhead(s.due, now);
      GridStep(bootUs, s.due, now);
      assert t.steps[..|t.steps| - 1] == s.steps;
      assert |t.steps| == |s.steps| + 1;
    }
  }

  lemma OnlyPointAhead(due: nat, now: nat, next: nat)
    requires due <= now < next <= now + STEP_US && (next - due) % STEP_US == 0
    ensures next == NextDue(due, now)
  {
    var k := (next - due) / STEP_US;
    assert next == due + k * STEP_US;
  }

  /** The catch-up loop finds that point. */
  method CatchUp(due: nat, now: nat) returns (next: nat)
    requires due <= now
    ensures next == NextDue(due, now)
  {
    next := due + STEP_US;
    while now >= next
      invariant due + STEP_US <= next <= now + STEP_US && (next - due) % STEP_US == 0
      decreases now + STEP_US - next
    {
      next := next + STEP_US;
    }
    OnlyPointAhead(due, now, next);
  }

  // ---------- Whole runs, from the octets of the receiver on ----------

  datatype Imu = Imu(rollAcc: real, pitchAcc: real, rollRate: real, pitchRate: real, yawRate: real)

  /** What a cycle takes from outside: the transport's answer, the octets the UART had with the clock at each,
      four clock readings, and what the sensors say if they are asked. */
  datatype Reading = Reading(
    polled: bool, command: IncomingCommand, raw: seq<Ibus.Octet>, stamps: seq<nat>,
    nowUs: nat, pollUs: nat, safetyUs: nat, controlUs: nat, imu: Option<Imu>, heading: Option<real>)

  /** A poll reads at most 96 octets. */
  type Inputs = i: Reading | |i.stamps| == |i.raw| <= 96
    witness Reading(false, NO_COMMAND, [], [], 0, 0, 0, 0, None, None)

  /** The node with its motors, its filters, its receiver and its schedule. */
  datatype Whole = Whole(node: Node, motors: Motors, estimates: Estimates, rx: Ibus.Rx, schedule: Schedule)

  function Booted(nowUs: nat): Node {
    Node(DISARMED, ControlSetpoint(0.0, 0.0, 0.0, 0.0), Sane(DEFAULT_CONFIG),
         Ibus.ReceiverSettings(DEFAULT_CONFIG), nowUs, 0)
  }

  /** The start of a run. Setpoint and filters are left from an earlier one, and of the axes their limits. */
  function Begun(initUs: nat, bootUs: nat, setpoint: SaneSetpoint, axes: Axes, estimates: Estimates): Whole {
    Whole(Booted(initUs).(setpoint := setpoint),
          Motors(AxesAtRest(AxesWithGains(axes, Sane(DEFAULT_CONFIG))), ALL_IDLE),
          estimates, Ibus.NO_RX, Started(bootUs))
  }

  /** The receiver's poll, under the settings that the command left. */
  function Listened(x: Whole, i: Inputs): (Ibus.Rx, Ibus.Sample) {
    var settings := Answered(x.node, i.polled, i.command, i.nowUs).settings;
    Ibus.Polled(x.rx, settings.0, settings.1, i.raw, i.stamps, i.pollUs)
  }

  /** The inputs as the node sees them; a sensor is asked only when the control step is due. */
  function CycleOf(x: Whole, i: Inputs): Cycle {
    var (rx, sample) := Listened(x, i);
    Cycle(i.polled, i.command, sample, Ibus.Linked(rx.lastFrameUs, i.safetyUs, RECEIVER_TIMEOUT_US),
          i.nowUs, i.safetyUs, i.controlUs >= x.schedule.due && i.imu.None?)
  }

  function Estimated(e: Estimates, m: Imu, heading: Option<real>, dt: real): Estimates
    requires dt > 0.0
  {
    var u := Updated(e, m.rollAcc, m.pitchAcc, m.rollRate, m.pitchRate, m.yawRate, dt);
    if heading.Some? then YawCorrected(u, heading.value, dt) else u
  }

  /** A frame that has turned as its gyros say, less the biases, is estimated to be where it is; of the heading the
      magnetometer takes away its part of the error. */
  lemma EstimatedExactly(
      e: Estimates, m: Imu, heading: Option<real>, dt: real, rollSpeed: real, pitchSpeed: real)
    requires dt > 0.0
    requires m.rollRate == rollSpeed + e.roll.bias && m.rollAcc == e.roll.angle + dt * rollSpeed
    requires m.pitchRate == pitchSpeed + e.pitch.bias && m.pitchAcc == e.pitch.angle + dt * pitchSpeed
    ensures (var now, yaw := Estimated(e, m, heading, dt).last, e.last.yawDeg + m.yawRate * dt;
      && now.rollDeg == m.rollAcc && now.pitchDeg == m.pitchAcc
      && now.rollRateDps == m.rollRate && now.pitchRateDps == m.pitchRate && now.yawRateDps == m.yawRate
      && (heading.None? ==> now.yawDeg == yaw)
      && (heading.Some? ==>
            HeadingError(heading.value, now.yawDeg) == Portion(HeadingError(heading.value, yaw), 1.0 - Alpha(dt))))
  {
    TurningIsFollowed(e, rollSpeed, pitchSpeed, m.yawRate, dt);
    hide Updated, HeadingError, Alpha, CorrectedYaw, Portion;
    if heading.Some? {
      CorrectionShrinksError(e.last.yawDeg + m.yawRate * dt, heading.value, dt);
    }
  }

  /** The time since the last control step, in seconds. */
  function Interval(x: Whole, i: Inputs): (dt: real)
    requires i.controlUs >= x.schedule.due
    ensures dt > 0.0
  {
    (i.controlUs - x.schedule.last) as real / 1_000_000.0
  }

  /** What the control step of the cycle knows of the attitude. */
  function Seen(x: Whole, i: Inputs): Estimates {
    if i.controlUs < x.schedule.due || i.imu.None? then x.estimates
    else Estimated(x.estimates, i.imu.value, i.heading, Interval(x, i))
  }

  /** The motors after the cycle, its control step included. */
  function Turned(x: Whole, i: Inputs): Motors {
    var c := CycleOf(x, i);
    var attended := MotorsAttended(x.motors, x.node, c);
    if i.controlUs < x.schedule.due then attended
    else if i.imu.None? then Halted(attended, Attended(x.node, c).arm)
    else MotorsDriven(attended, Attended(x.node, c), Seen(x, i).last, Interval(x, i))
  }

  function Stepped(x: Whole, i: Inputs): Whole {
    Whole(AfterCycle(x.node, CycleOf(x, i)), Turned(x, i), Seen(x, i),
          Listened(x, i).0, Ticked(x.schedule, i.controlUs))
  }

  /** The cycle up to its control step, part by part. */
  lemma AttendedParts(x: Whole, i: Inputs)
    ensures (var c, n := CycleOf(x, i), Answered(x.node, i.polled, i.command, i.nowUs);
      var (rx, sample) := Listened(x, i);
      var link, received := Ibus.Linked(rx.lastFrameUs, i.safetyUs, RECEIVER_TIMEOUT_US), Received(n, sample, i.nowUs);
      var m := MotorsReceived(MotorsAnswered(x.motors, x.node, i.polled, i.command), n.arm, sample);
      && Attended(x.node, c) == Checked(received, link, i.safetyUs)
      && MotorsAttended(x.motors, x.node, c) == MotorsChecked(m, received, link, i.safetyUs))
  {
    hide Listened, Answered, Received, Checked, Ibus.Linked, MotorsAnswered, MotorsReceived, MotorsChecked;
  }

  /** The three ways in which a cycle can end: no step is due, a due sample fails, or the step is made. */
  lemma StepParts(x: Whole, i: Inputs)
    ensures (var y, c := Stepped(x, i), CycleOf(x, i);
      var n, m := Attended(x.node, c), MotorsAttended(x.motors, x.node, c);
      && y.rx == Listened(x, i).0 && y.schedule == Ticked(x.schedule, i.controlUs)
      && (i.controlUs < x.schedule.due ==> y.node == n && y.motors == m && y.estimates == x.estimates)
      && (i.controlUs >= x.schedule.due && i.imu.None? ==>
            y.node == Failed(n) && y.motors == Halted(m, n.arm) && y.estimates == x.estimates)
      && (i.controlUs >= x.schedule.due && i.imu.Some? ==>
            && y.estimates == Estimated(x.estimates, i.imu.value, i.heading, Interval(x, i))
            && y.node == n && y.motors == MotorsDriven(m, n, y.estimates.last, Interval(x, i))))
  {
    hide Listened, Attended, MotorsAttended, MotorsDriven, Estimated, Halted, Failed;
  }

  function After(x: Whole, inputs: seq<Inputs>): Whole {
    if inputs == [] then x else Stepped(After(x, inputs[..|inputs| - 1]), inputs[|inputs| - 1])
  }

  lemma OneMoreInput(x: Whole, inputs: seq<Inputs>, k: nat)
    requires k < |inputs|
    ensures After(x, inputs[..k + 1]) == Stepped(After(x, inputs[..k]), inputs[k])
  {
    assert inputs[..k + 1][..k] == inputs[..k];
  }

  /** For every clock, steady or not, the schedule is in phase after every cycle. */
  lemma {:induction false} AlwaysInPhase(x: Whole, bootUs: nat, inputs: seq<Inputs>)
    requires x.schedule == Started(bootUs)
    ensures InPhase(bootUs, After(x, inputs).schedule)
  {
    if inputs != [] {
      AlwaysInPhase(x, bootUs, inputs[..|inputs| - 1]);
      TickKeepsPhase(bootUs, After(x, inputs[..|inputs| - 1]).schedule, inputs[|inputs| - 1].controlUs);
    }
  }

  /** The commands of the cycle bring a heartbeat. */
  predicate Beats(i: Inputs) { i.command.heartbeat.Some? && !i.command.emergencyStop }

  predicate Tunes(i: Inputs) { i.command.config.Some? && !i.command.emergencyStop }

  predicate LastBeat(inputs: seq<Inputs>, k: nat) {
    k < |inputs| && Beats(inputs[k]) && forall j | k < j < |inputs| :: !Beats(inputs[j])
  }

  predicate LastTuned(inputs: seq<Inputs>, k: nat) {
    k < |inputs| && Tunes(inputs[k]) && forall j | k < j < |inputs| :: !Tunes(inputs[j])
  }

  /** What a cycle remembers of the mailbox. */
  lemma Remembers(x: Whole, i: Inputs)
    ensures Stepped(x, i).node.lastHeartbeatUs == if Beats(i) then i.nowUs else x.node.lastHeartbeatUs
    ensures Stepped(x, i).node.config == if Tunes(i) then Sane(i.command.config.value) else x.node.config
    ensures (Stepped(x, i).node.settings
      == if Tunes(i) then Ibus.ReceiverSettings(i.command.config.value) else x.node.settings)
  {
    hide Listened, Turned, Seen, Limited, Steered, Overdue, ArmAfterReceiver, Sane, Ibus.ReceiverSettings;
  }

  lemma {:induction false} LastBeatIsRemembered(x: Whole, inputs: seq<Inputs>, k: nat)
    requires LastBeat(inputs, k)
    ensures After(x, inputs).node.lastHeartbeatUs == inputs[k].nowUs
  {
    hide Stepped, Beats;
    var m := |inputs| - 1;
    Remembers(After(x, inputs[..m]), inputs[m]);
    if k < m {
      LastBeatIsRemembered(x, inputs[..m], k);
    }
  }

  /** In every run the configuration in force, at the controller and at the receiver, is the last that any command
      brought, within its limits. */
  lemma {:induction false} LastConfigIsInForce(x: Whole, inputs: seq<Inputs>, k: nat)
    requires LastTuned(inputs, k)
    ensures After(x, inputs).node.config == Sane(inputs[k].command.config.value)
    ensures After(x, inputs).node.settings == Ibus.ReceiverSettings(inputs[k].command.config.value)
  {
    hide Stepped, Tunes, Sane, Ibus.ReceiverSettings;
    var m := |inputs| - 1;
    Remembers(After(x, inputs[..m]), inputs[m]);
    if k < m {
      LastConfigIsInForce(x, inputs[..m], k);
    }
  }

  /** What the receiver tells the node is honest in every cycle. */
  lemma AlwaysHonest(x: Whole, i: Inputs)
    ensures Honest(CycleOf(x, i))
  {
    var settings := Answered(x.node, i.polled, i.command, i.nowUs).settings;
    Ibus.LostIsFailsafe(x.rx, settings.0, settings.1, i.raw, i.stamps, i.pollUs);
  }

  /** Without a mailbox arm slot failsafe stays over any run, whatever the receiver does. */
  lemma {:induction false} FailsafeHolds(x: Whole, inputs: seq<Inputs>)
    requires x.node.arm == FAILSAFE
    requires forall i :: i in inputs ==> i.command.arm.None? || Asks(i.command, FAILSAFE) || i.command.emergencyStop
    ensures After(x, inputs).node.arm == FAILSAFE
  {
    hide Listened;
    if inputs != [] {
      var last := inputs[|inputs| - 1];
      FailsafeHolds(x, inputs[..|inputs| - 1]);
      assert last in inputs;
    }
  }

  /** Whatever came before, a cycle that ends armed had the switch up and no failsafe, and heard from the pilot,
      from the receiver and, once there was one, from the companion's heartbeat in time. */
  lemma ArmedIsAttended(x: Whole, i: Inputs)
    requires Stepped(x, i).node.arm == ARMED
    ensures (var c, after := CycleOf(x, i), Stepped(x, i).node;
      && SwitchHigh(c.sample) && c.sample.linkOk && !c.sample.failsafeSwitch && c.link
      && after.lastSetpointUs == i.nowUs && Ibus.Elapsed64(i.safetyUs, i.nowUs) <= 300_000
      && (after.lastHeartbeatUs == 0 || Ibus.Elapsed64(i.safetyUs, after.lastHeartbeatUs) <= 500_000)
      && after.setpoint == Limited(Steered(c.sample.channels)))
  {
    hide Listened;
    AlwaysHonest(x, i);
    ArmedExactly(x.node, CycleOf(x, i));
  }

  /** In every run a cycle ends armed only if the last heartbeat, if there has been any, came at most 500 ms before its
      safety check. */
  lemma ArmedWithHeartbeat(x: Whole, inputs: seq<Inputs>, k: nat)
    requires LastBeat(inputs, k) && After(x, inputs).node.arm == ARMED
    ensures inputs[k].nowUs == 0 || Ibus.Elapsed64(inputs[|inputs| - 1].safetyUs, inputs[k].nowUs) <= 500_000
  {
    hide Stepped;
    ArmedIsAttended(After(x, inputs[..|inputs| - 1]), inputs[|inputs| - 1]);
    LastBeatIsRemembered(x, inputs, k);
  }

  /** All octets of a run. */
  function Octets(inputs: seq<Inputs>): seq<Ibus.Octet> {
    if inputs == [] then [] else Octets(inputs[..|inputs| - 1]) + inputs[|inputs| - 1].raw
  }

  /** The clock at each of them. */
  function Stamps(inputs: seq<Inputs>): (t: seq<nat>)
    ensures |t| == |Octets(inputs)|
  {
    if inputs == [] then [] else Stamps(inputs[..|inputs| - 1]) + inputs[|inputs| - 1].stamps
  }

  lemma {:induction false} AlwaysHeard(x: Whole, inputs: seq<Inputs>)
    requires x.rx == Ibus.NO_RX
    ensures Ibus.HasHeard(After(x, inputs).rx, Octets(inputs), Stamps(inputs))
  {
    if inputs != [] {
      hide Ibus.HasHeard, Ibus.Polled, AfterCycle, CycleOf, Answered;
      var m := |inputs| - 1;
      var before, i := After(x, inputs[..m]), inputs[m];
      AlwaysHeard(x, inputs[..m]);
      var settings := Answered(before.node, i.polled, i.command, i.nowUs).settings;
      Ibus.PollKeepsHearing(
        before.rx, Octets(inputs[..m]), Stamps(inputs[..m]), settings.0, settings.1, i.raw, i.stamps, i.pollUs);
    }
  }

  /** The last valid frame in the octets of a run shows the arm switch up and the failsafe switch down, its last octet
      came at most 120 ms before the given time, and the setpoint is that of its sticks. */
  ghost predicate PilotArms(octets: seq<Ibus.Octet>, times: seq<nat>, nowUs: nat, setpoint: ControlSetpoint)
    requires |times| == |octets|
  {
    var p := Ibus.LastAt(Ibus.Formal, [], octets);
    && 32 <= p && Ibus.IsFrame(octets[p - 32..p])
    && Ibus.ChannelsOf(octets[p - 32..p])[4] > 1500
    && Ibus.ChannelsOf(octets[p - 32..p])[5] <= 1500
    && times[p - 1] != 0 && Ibus.Elapsed64(nowUs, times[p - 1]) <= 120_000
    && (exists c :: Ibus.Shapes(c, Ibus.ChannelsOf(octets[p - 32..p])) && setpoint == Steered(c))
  }

  /** In every run a cycle ends armed only if the pilot's last frame asks for it, in time for the safety check, and then
      flies what its sticks ask for. */
  lemma ArmedByThePilot(x: Whole, inputs: seq<Inputs>)
    requires x.rx == Ibus.NO_RX && inputs != [] && After(x, inputs).node.arm == ARMED
    ensures (PilotArms(Octets(inputs), Stamps(inputs), inputs[|inputs| - 1].safetyUs,
                       After(x, inputs).node.setpoint))
  {
    hide Ibus.Polled, Ibus.LastAt, Ibus.IsFrame, Ibus.ChannelsOf, Ibus.Shapes, AfterCycle, Answered, Steered;
    var m := |inputs| - 1;
    var before, i := After(x, inputs[..m]), inputs[m];
    ArmedIsAttended(before, i);
    AlwaysHeard(x, inputs[..m]);
    AlwaysHeard(x, inputs);
    var settings := Answered(before.node, i.polled, i.command, i.nowUs).settings;
    Ibus.PollShowsFrame(
      before.rx, Octets(inputs[..m]), Stamps(inputs[..m]), settings.0, settings.1, i.raw, i.stamps, i.pollUs);
    var c, p := CycleOf(before, i).sample.channels, Ibus.LastAt(Ibus.Formal, [], Octets(inputs));
    SticksAreNeverLimited(c);
    Ibus.ShapesKeepSwitches(c, Ibus.ChannelsOf(Octets(inputs)[p - 32..p]));
  }

  /** The first frame of a run arms the node exactly when its arm channel is high, its failsafe channel is low and its
      throttle is low, it is in time, and no due sample fails. */
  lemma FirstFrameArmsExactly(x: Whole, c: Ibus.Channels, i: Inputs)
    requires x.node.arm == DISARMED && x.node.settings == (15, 0.45) && x.node.lastHeartbeatUs == 0
    requires x.rx == Ibus.NO_RX && i.polled && i.command == NO_COMMAND && i.raw == Ibus.Encode(c)
    ensures (Stepped(x, i).node.arm == ARMED <==>
      && c[4] > 1500 && c[5] <= 1500 && Ibus.ThrottleExpo(c[2], 0.45) <= 1100
      && i.stamps[31] != 0 && Ibus.Elapsed64(i.safetyUs, i.stamps[31]) <= 120_000
      && Ibus.Elapsed64(i.safetyUs, i.nowUs) <= 300_000
      && !(i.controlUs >= x.schedule.due && i.imu.None?))
  {
    hide Ibus.Polled, Ibus.Encode, Ibus.ThrottleExpo, Ibus.CenterDeadzone, Turned, Seen;
    Ibus.OneFrameIsHeard(c, 15, 0.45, i.stamps, i.pollUs);
    ArmedExactly(x.node, CycleOf(x, i));
  }

  /** A run of one cycle that arms at full throttle: the mailbox asks for it, and the frame has all channels at 2000 but
      the failsafe channel. */
  lemma ArmsAtFullThrottle(initUs: nat, bootUs: nat, setpoint: SaneSetpoint, axes: Axes, estimates: Estimates)
      returns (c: Ibus.Channels, i: Inputs)
    ensures c[2] == 2000 && i.raw == Ibus.Encode(c) && i.command == NO_COMMAND.(arm := Some(CommandArm(ARMED)))
    ensures (var x := Begun(initUs, bootUs, setpoint, axes, estimates);
      x.node.arm == DISARMED && Stepped(x, i).node.arm == ARMED)
    ensures Steered(CycleOf(Begun(initUs, bootUs, setpoint, axes, estimates), i).sample.channels).throttle == 1.0
  {
    hide Ibus.Polled, Ibus.Encode, Ibus.ThrottleExpo, Ibus.CenterDeadzone, Turned, Seen, MapChannelUs;
    c := seq(14, k => if k == 5 then 1000 else 2000);
    i := Reading(true, NO_COMMAND.(arm := Some(CommandArm(ARMED))), Ibus.Encode(c), seq(32, k => 1000),
                 1000, 1000, 1000, bootUs, None, None);
    var x := Begun(initUs, bootUs, setpoint, axes, estimates);
    Ibus.OneFrameIsHeard(c, 15, 0.45, i.stamps, i.pollUs);
    Ibus.ThrottleExpoCurve(2000, 2000, 0.45);
    SticksAreNeverLimited(CycleOf(x, i).sample.channels);
    ArmedExactly(x.node, CycleOf(x, i));
  }

  /** As long as the mailbox asks for failsafe or for nothing, which is all that Linux itself ever asks, arming needs
      the node disarmed and the throttle low. */
  lemma WithoutMailboxArmsLow(x: Whole, i: Inputs)
    requires x.node.arm != ARMED && Stepped(x, i).node.arm == ARMED
    requires i.command.arm.None? || Asks(i.command, FAILSAFE) || i.command.emergencyStop
    ensures x.node.arm == DISARMED && ThrottleLow(CycleOf(x, i).sample) && SwitchHigh(CycleOf(x, i).sample)
  {
    hide Listened, Turned, Seen;
    AlwaysHonest(x, i);
    ArmedExactly(x.node, CycleOf(x, i));
  }

  // ---------- What turns the motors, in every run ----------

  /** At rest the axes would show nothing but this configuration. */
  ghost predicate TunedBy(m: Motors, c: FlightConfig) {
    AxesAtRest(m.axes) == AxesAtRest(AxesWithGains(INITIAL_AXES, c))
  }

  ghost predicate KeptBy(m: Motors, n: Node) {
    (n.arm != ARMED ==> m.pwm == ALL_IDLE) && TunedBy(m, n.config)
  }

  /** What every cycle keeps: idle motors unless armed, axes tuned by the configuration in force, and that within its
      limits. */
  ghost predicate Kept(x: Whole) { KeptBy(x.motors, x.node) && x.node.config == Sane(x.node.config) }

  lemma SwitchedIsTuned(m: Motors, from: ArmState, to: ArmState, c: FlightConfig)
    requires TunedBy(m, c)
    ensures TunedBy(Switched(m, from, to), c) && TunedBy(Switched(m, from, to).(pwm := ALL_IDLE), c)
  {
  }

  lemma RetunedIsTuned(m: Motors, c: FlightConfig, d: FlightConfig)
    requires TunedBy(m, c)
    ensures TunedBy(m.(axes := AxesAtRest(AxesWithGains(m.axes, d))), d)
  {
  }

  lemma SwitchedTo(m: Motors, from: ArmState, to: ArmState)
    ensures Switched(m, from, to).pwm == m.pwm
    ensures Switched(m, from, to).axes == if from == to then m.axes else AxesAtRest(m.axes)
  {
  }

  lemma CommandedKeeps(m: Motors, n: Node, c: IncomingCommand, nowUs: nat)
    requires KeptBy(m, n)
    ensures KeptBy(MotorsCommanded(m, n.arm, c), Commanded(n, c, nowUs))
  {
    hide Switched, TunedBy, AxesAtRest, AxesWithGains, Limited, Sane;
    SwitchedIsTuned(m, n.arm, FAILSAFE, n.config);
    if c.arm.Some? {
      SwitchedIsTuned(m, n.arm, c.arm.value.state, n.config);
    }
    if c.config.Some? {
      RetunedIsTuned(MotorsSwitched(m, n.arm, c), n.config, Sane(c.config.value));
    }
    SwitchedTo(m, n.arm, ARMED);
  }

  lemma ReceivedKeeps(m: Motors, n: Node, s: Ibus.Sample, nowUs: nat)
    requires KeptBy(m, n)
    ensures KeptBy(MotorsReceived(m, n.arm, s), Received(n, s, nowUs))
  {
    hide Switched, TunedBy, Limited, Steered;
    SwitchedIsTuned(m, n.arm, FAILSAFE, n.config);
    SwitchedIsTuned(m, n.arm, ArmAfterReceiver(n.arm, s), n.config);
    SwitchedTo(m, n.arm, ArmAfterReceiver(n.arm, s));
  }

  lemma CheckedKeeps(m: Motors, n: Node, link: bool, nowUs: nat)
    requires KeptBy(m, n)
    ensures KeptBy(MotorsChecked(m, n, link, nowUs), Checked(n, link, nowUs))
  {
    hide Switched, TunedBy, Overdue;
    SwitchedIsTuned(m, n.arm, FAILSAFE, n.config);
  }

  lemma HaltedKeeps(m: Motors, n: Node)
    requires TunedBy(m, n.config)
    ensures KeptBy(Halted(m, n.arm), Failed(n))
  {
    hide Switched, TunedBy;
    SwitchedIsTuned(m, n.arm, FAILSAFE, n.config);
  }

  lemma AttendedKeeps(m: Motors, n: Node, c: Cycle)
    requires KeptBy(m, n)
    ensures KeptBy(MotorsAttended(m, n, c), Attended(n, c))
  {
    hide Commanded, TunedBy, MotorsCommanded, Received, MotorsReceived, Checked, MotorsChecked;
    if c.polled {
      CommandedKeeps(m, n, c.command, c.nowUs);
    } else {
      HaltedKeeps(m, n);
      CommandedKeeps(Halted(m, n.arm), Failed(n), c.command, c.nowUs);
    }
    var answered := Answered(n, c.polled, c.command, c.nowUs);
    var m1 := MotorsAnswered(m, n, c.polled, c.command);
    ReceivedKeeps(m1, answered, c.sample, c.nowUs);
    CheckedKeeps(MotorsReceived(m1, answered.arm, c.sample), Received(answered, c.sample, c.nowUs), c.link, c.safetyUs);
  }

  lemma DrivenKeeps(m: Motors, n: Node, state: AttitudeState, dt: real)
    requires TunedBy(m, n.config)
    ensures TunedBy(MotorsDriven(m, n, state, dt), n.config)
    ensures n.arm != ARMED ==> MotorsDriven(m, n, state, dt).pwm == ALL_IDLE
  {
  }

  lemma SaneTwice(c: FlightConfig)
    ensures Sane(Sane(c)) == Sane(c)
  {
  }

  lemma ConfigStaysSane(x: Whole, i: Inputs)
    requires x.node.config == Sane(x.node.config)
    ensures Stepped(x, i).node.config == Sane(Stepped(x, i).node.config)
  {
    hide Listened, Turned, Seen, Limited, Steered, Overdue, ArmAfterReceiver, Sane;
    if i.command.config.Some? {
      SaneTwice(i.command.config.value);
    }
  }

  lemma StepKeeps(x: Whole, i: Inputs)
    requires Kept(x)
    ensures Kept(Stepped(x, i))
  {
    hide Listened, Estimated, MotorsAttended, Attended, Driven, TunedBy;
    var c := CycleOf(x, i);
    AttendedKeeps(x.motors, x.node, c);
    var m, n := MotorsAttended(x.motors, x.node, c), Attended(x.node, c);
    HaltedKeeps(m, n);
    ConfigStaysSane(x, i);
    if i.controlUs >= x.schedule.due {
      DrivenKeeps(m, n, Seen(x, i).last, Interval(x, i));
    }
  }

  /** In every run, after every cycle: a node that is not armed has its motors at idle, and the axes are tuned by the
      configuration that is in force. */
  lemma {:induction false} AlwaysKept(x: Whole, inputs: seq<Inputs>)
    requires Kept(x)
    ensures Kept(After(x, inputs))
  {
    hide Stepped;
    if inputs != [] {
      AlwaysKept(x, inputs[..|inputs| - 1]);
      StepKeeps(After(x, inputs[..|inputs| - 1]), inputs[|inputs| - 1]);
    }
  }

  /** So it is from the start of every run, whatever the run before has left. */
  lemma BegunIsKept(
      initUs: nat, bootUs: nat, setpoint: SaneSetpoint, left: Motors, config: FlightConfig, estimates: Estimates)
    requires TunedBy(left, config)
    ensures (var x := Begun(initUs, bootUs, setpoint, left.axes, estimates);
      && Kept(x) && x.motors.pwm == Quad(1000, 1000, 1000, 1000)
      && x.node == Node(DISARMED, setpoint, DEFAULT_CONFIG, (15, 0.45), initUs, 0))
  {
    SaneTwice(DEFAULT_CONFIG);
  }

  /** The node was armed, and the mailbox did not disarm it on the way. */
  predicate StaysArmed(x: Whole, i: Inputs) {
    x.node.arm == ARMED && i.polled && (i.command.arm.None? || i.command.arm.value.state == ARMED)
  }

  /** The axes with which a due step of an armed cycle begins: those of the cycle before, if the node stayed armed and
      got no configuration, and otherwise axes at rest under the configuration in force. */
  lemma AxesOfTheStep(x: Whole, i: Inputs)
    requires Kept(x) && Attended(x.node, CycleOf(x, i)).arm == ARMED
    ensures (MotorsAttended(x.motors, x.node, CycleOf(x, i)).axes
      == if StaysArmed(x, i) && i.command.config.None? then x.motors.axes
         else AxesAtRest(AxesWithGains(INITIAL_AXES, Attended(x.node, CycleOf(x, i)).config)))
  {
    hide Listened, Limited, Steered, Sane;
    AlwaysHonest(x, i);
  }

  /** In every run, a due control step of a cycle that ends armed sends the motors what the cascade of axes answers to
      the setpoint at the estimated attitude, and leaves the axes advanced by it. */
  lemma ArmedStepDrives(x: Whole, i: Inputs)
    requires Kept(x) && i.controlUs >= x.schedule.due && Stepped(x, i).node.arm == ARMED
    ensures (var y, axes := Stepped(x, i), MotorsAttended(x.motors, x.node, CycleOf(x, i)).axes;
      && i.imu.Some? && y.estimates == Estimated(x.estimates, i.imu.value, i.heading, Interval(x, i))
      && y.motors.pwm == Driven(axes, y.node.setpoint, y.estimates.last, Interval(x, i))
      && y.motors.axes == AxesAdvanced(axes, y.node.setpoint, y.estimates.last, Interval(x, i))
      && axes == if StaysArmed(x, i) && i.command.config.None? then x.motors.axes
                 else AxesAtRest(AxesWithGains(INITIAL_AXES, y.node.config)))
  {
    hide Listened, Estimated, MotorsAttended, Attended, Driven, AxesAdvanced;
    AxesOfTheStep(x, i);
  }

  /** What the cascade is given in a cycle: nothing, unless a step is due. */
  function StepOf(x: Whole, i: Inputs): (ts: seq<Sampled>)
    ensures |ts| <= 1
  {
    if i.controlUs < x.schedule.due then []
    else [Sampled(Stepped(x, i).node.setpoint, Stepped(x, i).estimates.last, Interval(x, i))]
  }

  function StepsOf(x: Whole, inputs: seq<Inputs>): seq<Sampled> {
    if inputs == [] then []
    else
      var before := inputs[..|inputs| - 1];
      StepsOf(x, before) + StepOf(After(x, before), inputs[|inputs| - 1])
  }

  lemma CycleAdvances(x: Whole, i: Inputs)
    requires Kept(x) && Stepped(x, i).node.arm == ARMED
    ensures (Stepped(x, i).motors.axes
      == AfterSteps(if StaysArmed(x, i) && i.command.config.None? then x.motors.axes
                    else AxesAtRest(AxesWithGains(INITIAL_AXES, Stepped(x, i).node.config)), StepOf(x, i)))
  {
    hide Listened, MotorsAttended, Attended, Driven, AxesAdvanced, Estimated, AxesWithGains, AxesAtRest;
    AxesOfTheStep(x, i);
  }

  lemma StepsAppend(a: Axes, ts: seq<Sampled>, us: seq<Sampled>)
    requires |us| <= 1
    ensures AfterSteps(a, ts + us) == AfterSteps(AfterSteps(a, ts), us)
  {
    if us == [] {
      assert ts + us == ts;
    } else {
      assert (ts + us)[..|ts| + |us| - 1] == ts && us[..0] == [];
    }
  }

  /** The first cycle of the run arms the node, and it stays armed and gets no further configuration. */
  predicate Flies(x: Whole, inputs: seq<Inputs>) {
    && inputs != [] && After(x, inputs).node.arm == ARMED
    && var m := |inputs| - 1;
      if m == 0 then !StaysArmed(x, inputs[0])
      else
        Flies(x, inputs[..m]) && StaysArmed(After(x, inputs[..m]), inputs[m]) && inputs[m].command.config.None?
  }

  function Rested(c: FlightConfig): Axes { AxesAtRest(AxesWithGains(INITIAL_AXES, c)) }

  /** The axes are those of one cascade that began at rest and has been given these steps. */
  ghost predicate IsCascade(y: Whole, ts: seq<Sampled>) {
    y.motors.axes == AfterSteps(Rested(y.node.config), ts)
  }

  lemma FlightBegins(x: Whole, i: Inputs)
    requires Kept(x) && Flies(x, [i])
    ensures After(x, [i]) == Stepped(x, i) && IsCascade(Stepped(x, i), StepsOf(x, [i]))
  {
    hide Stepped, StaysArmed, Kept, AxesAtRest, AxesWithGains, StepOf;
    assert [i][..0] == [] && After(x, [i][..0]) == x;
    assert StepsOf(x, [i]) == [] + StepOf(x, i) == StepOf(x, i);
    CycleAdvances(x, i);
  }

  lemma FlightGoesOn(x: Whole, ts: seq<Sampled>, i: Inputs)
    requires Kept(x) && IsCascade(x, ts) && Stepped(x, i).node.arm == ARMED
    requires StaysArmed(x, i) && i.command.config.None?
    ensures IsCascade(Stepped(x, i), ts + StepOf(x, i)) && Stepped(x, i).node.config == x.node.config
  {
    hide Stepped, StaysArmed, Kept, Rested, StepOf;
    CycleAdvances(x, i);
    Remembers(x, i);
    StepsAppend(Rested(x.node.config), ts, StepOf(x, i));
  }

  /** In every run, from the cycle that arms it on, the axes of a node that stays armed are those of one cascade that
      began at rest and has been given the steps since, each with setpoint, attitude and interval of its own cycle. */
  lemma {:induction false} ArmedRunIsCascade(x: Whole, inputs: seq<Inputs>)
    requires Kept(x) && Flies(x, inputs)
    ensures IsCascade(After(x, inputs), StepsOf(x, inputs))
  {
    hide Stepped, StaysArmed, Kept, IsCascade, StepOf;
    var m := |inputs| - 1;
    if m == 0 {
      assert inputs == [inputs[0]];
      FlightBegins(x, inputs[0]);
    } else {
      AlwaysKept(x, inputs[..m]);
      ArmedRunIsCascade(x, inputs[..m]);
      FlightGoesOn(After(x, inputs[..m]), StepsOf(x, inputs[..m]), inputs[m]);
    }
  }

  lemma {:induction false} StepsGoForward(x: Whole, inputs: seq<Inputs>)
    ensures Forward(StepsOf(x, inputs)) && Running(YawFeds(StepsOf(x, inputs)))
  {
    hide Stepped;
    if inputs != [] {
      StepsGoForward(x, inputs[..|inputs| - 1]);
    }
    SightsAreTimed(StepsOf(x, inputs));
  }

  /** A step is due in the last cycle, and it is not the first. */
  predicate StepsAgain(x: Whole, inputs: seq<Inputs>) {
    && inputs != [] && StepsOf(x, inputs[..|inputs| - 1]) != []
    && inputs[|inputs| - 1].controlUs >= After(x, inputs[..|inputs| - 1]).schedule.due
  }

  lemma DueStep(x: Whole, inputs: seq<Inputs>) returns (t: Sampled)
    requires Kept(x) && Flies(x, inputs) && StepsAgain(x, inputs)
    ensures StepsOf(x, inputs) == StepsOf(x, inputs[..|inputs| - 1]) + [t]
    ensures t.sp == After(x, inputs).node.setpoint && t.dt > 0.0
    ensures (After(x, inputs).motors.pwm
      == Driven(AfterSteps(Rested(After(x, inputs).node.config), StepsOf(x, inputs[..|inputs| - 1])), t.sp, t.s, t.dt))
    ensures After(x, inputs).node.config == Sane(After(x, inputs).node.config)
  {
    var m := |inputs| - 1;
    var before, i := After(x, inputs[..m]), inputs[m];
    AlwaysKept(x, inputs[..m]);
    AlwaysKept(x, inputs);
    assert m > 0;
    ArmedRunIsCascade(x, inputs[..m]);
    Remembers(before, i);
    ArmedStepDrives(before, i);
    t := Sampled(Stepped(before, i).node.setpoint, Stepped(before, i).estimates.last, Interval(before, i));
    hide Stepped, AxesAtRest, AxesWithGains, Driven, AfterSteps, Sane;
  }

  /** In every run, from the cycle that arms the node on, as long as no integrator meets its limit, the pulses of every
      step but the first are the mix of the textbook torques of all the steps since. */
  lemma FlightIsTextbook(x: Whole, inputs: seq<Inputs>, angle: PidConfig, rate: PidConfig, yaw: PidConfig)
    requires Kept(x) && Flies(x, inputs) && StepsAgain(x, inputs)
    requires (var c := After(x, inputs).node.config;
      && angle == PidConfig(c.angleP, 0.0, 0.05, -50.0, 50.0, -220.0, 220.0)
      && rate == PidConfig(c.rateP, c.rateI, c.rateD, -120.0, 120.0, -1.0, 1.0)
      && yaw == rate.(integratorMin := -100.0, integratorMax := 100.0))
    requires (var us := StepsOf(x, inputs);
      Smooth(angle, rate, RollSights(us)) && Smooth(angle, rate, PitchSights(us)) && Unsaturated(yaw, YawFeds(us)))
    ensures Running(YawFeds(StepsOf(x, inputs))) && |StepsOf(x, inputs)| >= 2
    ensures (var y, us := After(x, inputs), StepsOf(x, inputs);
      y.motors.pwm == MixPwm(y.node.setpoint.throttle, TextbookTorque(angle, rate, PitchSights(us)),
                             TextbookTorque(angle, rate, RollSights(us)), TextbookYaw(yaw, YawFeds(us))))
  {
    hide Stepped, Smooth, Unsaturated, TextbookTorque, TextbookYaw, AxesResponse, AfterSteps, MixPwm, Kept, Flies,
      StepsOf, AxesAtRest, AxesWithGains;
    var t := DueStep(x, inputs);
    StepsGoForward(x, inputs);
    TorquesAreTextbook(After(x, inputs).node.config, Rested(After(x, inputs).node.config),
                       StepsOf(x, inputs[..|inputs| - 1]), t, angle, rate, yaw);
  }

  // ---------- Such a run ----------

  const HOVER: Ibus.Channels := [1500, 1500, 1000, 1500, 2000, 1000, 1000, 1000, 1000, 1000, 1000, 1000, 1000, 1000]

  const STILL := Imu(0.0, 0.0, 0.0, 0.0, 0.0)

  /** A cycle without command and octets, all clocks at t, in which the sensors say that nothing moves. */
  function Quiet(t: nat): Inputs { Reading(true, NO_COMMAND, [], [], t, t, t, t, Some(STILL), None) }

  predicate AtZero(e: Estimates) {
    e.roll.angle == e.roll.bias == e.pitch.angle == e.pitch.bias == 0.0
  }

  /** Armed by the frame above at 2000 us, level, with a step due at t. */
  predicate Hovering(x: Whole, t: nat) {
    && x.node.arm == ARMED && x.node.lastHeartbeatUs == 0 && x.rx.held == [] && x.rx.lastFrameUs == 2000
    && x.rx.lastSample.channels == HOVER && x.schedule.due == t && AtZero(x.estimates)
  }

  lemma HoverSticks()
    ensures Steered(HOVER) == ControlSetpoint(0.0, 0.0, 0.0, 0.0)
  {
    SticksExactly(HOVER);
  }

  lemma QuietSample(x: Whole, t: nat)
    requires Hovering(x, t) && 2000 <= t <= 80_000
    ensures (var (rx, sample) := Listened(x, Quiet(t));
      && rx.held == [] && rx.lastFrameUs == 2000 && rx.lastSample.channels == sample.channels == HOVER
      && sample.linkOk && !sample.failsafeSwitch)
  {
    var settings := Answered(x.node, true, NO_COMMAND, t).settings;
    Ibus.QuietPollExactly(x.rx, settings.0, settings.1, [], [], t);
  }

  lemma QuietEstimates(e: Estimates, dt: real)
    requires AtZero(e) && dt > 0.0
    ensures (var f := Estimated(e, STILL, None, dt);
      && AtZero(f) && f.last.rollDeg == f.last.pitchDeg == 0.0
      && f.last.rollRateDps == f.last.pitchRateDps == f.last.yawRateDps == 0.0)
  {
    TurningIsFollowed(e, 0.0, 0.0, 0.0, dt);
  }

  lemma QuietCycle(x: Whole, t: nat)
    requires Hovering(x, t) && 2000 <= t <= 80_000
    ensures Hovering(Stepped(x, Quiet(t)), t + 2500) && StaysArmed(x, Quiet(t))
    ensures |StepOf(x, Quiet(t))| == 1 && Level(StepOf(x, Quiet(t))[0])
  {
    hide Listened, Estimated, Steered, Limited, MotorsAttended, MotorsDriven, Attended, AfterCycle;
    QuietSample(x, t);
    AlwaysHonest(x, Quiet(t));
    ArmStateExactly(x.node, CycleOf(x, Quiet(t)));
    SetpointExactly(x.node, CycleOf(x, Quiet(t)));
    QuietEstimates(x.estimates, Interval(x, Quiet(t)));
    HoverSticks();
    Remembers(x, Quiet(t));
  }

  const RESTING := Estimates(INITIAL, INITIAL, AttitudeState(0.0, 0.0, 0.0, 0.0, 0.0, 0.0))

  /** The start of a run at 1000 us. */
  function FirstStart(): Whole {
    Begun(1000, 1000, ControlSetpoint(0.0, 0.0, 0.0, 0.0), Rested(DEFAULT_CONFIG), RESTING)
  }

  function ArmingFrame(): Inputs {
    Reading(true, NO_COMMAND, Ibus.Encode(HOVER), seq(32, k => 2000), 2000, 2000, 2000, 2000, None, None)
  }

  lemma HoverShape()
    ensures Ibus.Shape(HOVER, 15, 0.45) == HOVER && Ibus.ThrottleExpo(HOVER[2], 0.45) <= 1100
  {
    hide Ibus.ThrottleExpo;
    Ibus.ThrottleExpoCurve(1000, 1000, 0.45);
  }

  lemma TakesOff()
    ensures Kept(FirstStart()) && !StaysArmed(FirstStart(), ArmingFrame())
    ensures Hovering(Stepped(FirstStart(), ArmingFrame()), 3500) && StepOf(FirstStart(), ArmingFrame()) == []
  {
    hide Ibus.Polled, Ibus.Encode, Ibus.ThrottleExpo, Ibus.Shape, Turned, AfterCycle;
    var x, i := FirstStart(), ArmingFrame();
    BegunIsKept(1000, 1000, x.node.setpoint, Motors(Rested(DEFAULT_CONFIG), ALL_IDLE), DEFAULT_CONFIG, RESTING);
    HoverShape();
    Ibus.OneFrameIsHeard(HOVER, 15, 0.45, i.stamps, 2000);
    FirstFrameArmsExactly(x, HOVER, i);
    Remembers(x, i);
  }

  lemma OneCycle(x: Whole, i: Inputs)
    ensures After(x, [i]) == Stepped(x, i) && StepsOf(x, [i]) == StepOf(x, i)
    ensures Flies(x, [i]) <==> Stepped(x, i).node.arm == ARMED && !StaysArmed(x, i)
  {
    hide Stepped, StepOf, StaysArmed;
    assert [i][..0] == [] && After(x, []) == x;
    assert [] + StepOf(x, i) == StepOf(x, i);
  }

  lemma OneMoreCycle(x: Whole, before: seq<Inputs>, i: Inputs)
    ensures After(x, before + [i]) == Stepped(After(x, before), i)
    ensures StepsOf(x, before + [i]) == StepsOf(x, before) + StepOf(After(x, before), i)
    ensures (before != [] ==>
      (Flies(x, before + [i]) <==>
         && Flies(x, before) && Stepped(After(x, before), i).node.arm == ARMED
         && StaysArmed(After(x, before), i) && i.command.config.None?))
  {
    hide Stepped, StepOf, StaysArmed;
    assert (before + [i])[..|before|] == before;
  }

  lemma BothLevel(ts: seq<Sampled>, us: seq<Sampled>)
    requires |ts| == 1 && |us| == 1 && Level(ts[0]) && Level(us[0])
    ensures AllLevel(ts + us)
  {
    assert (ts + us)[..1] == ts && ts[..0] == [];
  }

  lemma TwoCycles(x: Whole, i: Inputs, j: Inputs, y: Whole)
    requires y == Stepped(x, i) && y.node.arm == Stepped(y, j).node.arm == ARMED
    requires !StaysArmed(x, i) && StaysArmed(y, j) && j.command.config.None? && StepOf(x, i) == []
    ensures Flies(x, [i] + [j]) && After(x, [i] + [j]) == Stepped(y, j)
    ensures StepsOf(x, [i] + [j]) == StepOf(y, j)
  {
    hide Stepped, StaysArmed, StepOf, After, StepsOf, Flies;
    OneCycle(x, i);
    OneMoreCycle(x, [i], j);
    assert [] + StepOf(y, j) == StepOf(y, j);
  }

  lemma LastCycle(x: Whole, before: seq<Inputs>, k: Inputs, z: Whole)
    requires z == After(x, before) && Flies(x, before) && Stepped(z, k).node.arm == ARMED && StaysArmed(z, k)
    requires k.command.config.None? && k.controlUs >= z.schedule.due
    requires |StepsOf(x, before)| == |StepOf(z, k)| == 1 && Level(StepsOf(x, before)[0]) && Level(StepOf(z, k)[0])
    ensures Flies(x, before + [k]) && StepsAgain(x, before + [k]) && AllLevel(StepsOf(x, before + [k]))
  {
    assert before != [] && (before + [k])[..|before|] == before;
    hide Stepped, StaysArmed, StepOf, Level, After, StepsOf, AllLevel, Flies;
    OneMoreCycle(x, before, k);
    BothLevel(StepsOf(x, before), StepOf(z, k));
  }

  /** There are such runs: a node that is armed by one frame and hovers. */
  lemma FlightHappens(angle: PidConfig, rate: PidConfig, yaw: PidConfig) returns (x: Whole, inputs: seq<Inputs>)
    requires angle.outputMin == -220.0 && angle.outputMax == 220.0
    requires rate.integratorMin == -120.0 && rate.integratorMax == 120.0
    requires yaw.integratorMin == -100.0 && yaw.integratorMax == 100.0
    ensures Kept(x) && Flies(x, inputs) && StepsAgain(x, inputs)
    ensures (var us := StepsOf(x, inputs);
      Smooth(angle, rate, RollSights(us)) && Smooth(angle, rate, PitchSights(us)) && Unsaturated(yaw, YawFeds(us)))
  {
    hide Stepped, Kept, StaysArmed, StepOf, FirstStart, ArmingFrame, Flies, StepsAgain, StepsOf, Smooth, Unsaturated;
    x := FirstStart();
    var i, j, k := ArmingFrame(), Quiet(3500), Quiet(6000);
    inputs := [i] + [j] + [k];
    TakesOff();
    QuietCycle(Stepped(x, i), 3500);
    QuietCycle(Stepped(Stepped(x, i), j), 6000);
    TwoCycles(x, i, j, Stepped(x, i));
    LastCycle(x, [i] + [j], k, Stepped(Stepped(x, i), j));
    LevelIsSmooth(angle, rate, yaw, StepsOf(x, inputs));
  }

  function Total(ts: seq<Sampled>): real {
    if ts == [] then 0.0 else Total(ts[..|ts| - 1]) + ts[|ts| - 1].dt
  }

  lemma TotalOfOneMore(ts: seq<Sampled>, us: seq<Sampled>)
    requires |us| <= 1
    ensures Total(ts + us) == Total(ts) + if us == [] then 0.0 else us[0].dt
  {
    if us == [] {
      assert ts + us == ts;
    } else {
      assert (ts + us)[..|ts| + |us| - 1] == ts;
    }
  }

  /** No time is lost or counted twice: in every run the intervals of all the steps, in seconds, add up to the time from
      the start to the last of them, in microseconds. */
  lemma {:induction false} TimeIsConserved(x: Whole, inputs: seq<Inputs>)
    ensures 1_000_000.0 * Total(StepsOf(x, inputs)) == (After(x, inputs).schedule.last - x.schedule.last) as real
  {
    if inputs != [] {
      var m := |inputs| - 1;
      var before, i := After(x, inputs[..m]), inputs[m];
      TimeIsConserved(x, inputs[..m]);
      TotalOfOneMore(StepsOf(x, inputs[..m]), StepOf(before, i));
      hide Turned, Seen, Listened, AfterCycle, CycleOf;
      assert Stepped(before, i).schedule == Ticked(before.schedule, i.controlUs);
    }
  }

  /** And if that is the first step after arming, on a frame that does not turn about these axes, every torque has the
      direction from where the frame is to where the sticks want it. */
  lemma FirstStepFollowsSticks(x: Whole, i: Inputs)
    requires Kept(x) && i.controlUs >= x.schedule.due && x.node.arm != ARMED && Stepped(x, i).node.arm == ARMED
    requires Stepped(x, i).estimates.last.rollRateDps == Stepped(x, i).estimates.last.pitchRateDps == 0.0
    ensures (var y, axes, c := Stepped(x, i), MotorsAttended(x.motors, x.node, CycleOf(x, i)).axes,
                               CycleOf(x, i).sample.channels;
      Corrects(AxesResponse(axes, y.node.setpoint, y.estimates.last, Interval(x, i)), Steered(c), y.estimates.last))
  {
    hide Listened, Estimated, MotorsAttended, AxesResponse, Driven, AxesAdvanced, Steered;
    ArmedStepDrives(x, i);
    ArmedIsAttended(x, i);
    SticksAreNeverLimited(CycleOf(x, i).sample.channels);
    var y := Stepped(x, i);
    ConfigStaysSane(x, i);
    TorquesFromRest(y.node.config, y.node.setpoint, y.estimates.last, Interval(x, i),
                    MotorsAttended(x.motors, x.node, CycleOf(x, i)).axes);
  }

  /** In every run, a cycle that ends armed without a due step leaves the motors the pulses they have, unless it did not
      begin armed or lost that on the way; then it leaves them idle. */
  lemma WithoutStepPulsesStay(x: Whole, i: Inputs)
    requires Kept(x) && i.controlUs < x.schedule.due && Stepped(x, i).node.arm == ARMED
    ensures (Stepped(x, i).motors.pwm
      == if StaysArmed(x, i) then x.motors.pwm else ALL_IDLE)
    ensures Stepped(x, i).estimates == x.estimates
  {
    hide Listened, Estimated, Limited, Steered, Sane, Driven, AxesAdvanced;
    AlwaysHonest(x, i);
  }

  /** The end of a run. */
  function Landed(x: Whole): Whole {
    x.(node := x.node.(arm := DISARMED), motors := Switched(x.motors, x.node.arm, DISARMED).(pwm := ALL_IDLE))
  }

  /** A run of any length leaves a disarmed node with idle motors, from which the next run starts as it should. */
  lemma RunsFollowRuns(x: Whole, inputs: seq<Inputs>, initUs: nat, bootUs: nat)
    requires Kept(x)
    ensures (var y := Landed(After(x, inputs));
      && y.node.arm == DISARMED && y.motors.pwm == Quad(1000, 1000, 1000, 1000) && Kept(y)
      && Kept(Begun(initUs, bootUs, y.node.setpoint, y.motors.axes, y.estimates)))
  {
    hide Stepped, Switched, TunedBy;
    AlwaysKept(x, inputs);
    var y := After(x, inputs);
    SwitchedIsTuned(y.motors, y.node.arm, DISARMED, y.node.config);
    BegunIsKept(initUs, bootUs, y.node.setpoint, Landed(y).motors, y.node.config, y.estimates);
  }

  // ---------- The node itself ----------

  class FlightRtNode {
    const receiver: Ibus.Receiver
    const estimator: AttitudeEstimator
    const controller: Controller
    const actuator: Actuator
    var lastSetpointUs: nat
    var lastHeartbeatUs: nat
    var reportSeq: nat

    ghost function Value(): Node
      reads this, controller, receiver
    {
      Node(controller.armState, controller.setpoint, controller.activeConfig,
           (receiver.deadzoneUs, receiver.throttleExpo), lastSetpointUs, lastHeartbeatUs)
    }

    ghost function Moving(): Motors
      reads controller, controller.Parts(), actuator
    {
      Motors(controller.Value(), actuator.lastPwm)
    }

    /** Between any two operations a node that is not armed has its motors at idle. */
    ghost predicate Safe()
      reads controller, actuator
    {
      controller.Valid() && (controller.armState != ARMED ==> actuator.lastPwm == ALL_IDLE)
    }

    ghost predicate Valid()
      reads this, controller, controller.Parts(), actuator, receiver, receiver.frameBuffer
      reads estimator, estimator.rollFilter, estimator.pitchFilter
    {
      Safe() && receiver.Valid() && Ibus.HoldsHeader(receiver.Held()) && estimator.Valid()
    }

    constructor ()
      ensures Valid() && fresh(receiver) && fresh(receiver.frameBuffer)
      ensures fresh(controller) && fresh(controller.Parts()) && fresh(actuator)
      ensures fresh(estimator) && fresh(estimator.rollFilter) && fresh(estimator.pitchFilter)
      ensures Value() == Node(DISARMED, ControlSetpoint(0.0, 0.0, 0.0, 0.0), DEFAULT_CONFIG, (15, 0.45), 0, 0)
      ensures TunedBy(Moving(), DEFAULT_CONFIG)
    {
      receiver := new Ibus.Receiver();
      estimator := new AttitudeEstimator();
      controller := new Controller();
      actuator := new Actuator();
      lastSetpointUs, lastHeartbeatUs, reportSeq := 0, 0, 0;
    }

    method SetArm(state: ArmState)
      requires controller.Valid()
      modifies controller`armState, controller.Parts()
      ensures controller.armState == state
      ensures Moving() == Switched(old(Moving()), old(controller.armState), state)
    {
      controller.SetArmState(state);
    }

    method Configure(config: FlightConfig)
      requires controller.Valid()
      modifies controller`activeConfig, controller.Parts(), receiver`deadzoneUs, receiver`throttleExpo
      ensures controller.activeConfig == Sane(config)
      ensures (receiver.deadzoneUs, receiver.throttleExpo) == Ibus.ReceiverSettings(config)
      ensures controller.Value() == AxesAtRest(AxesWithGains(old(controller.Value()), Sane(config)))
    {
      controller.ApplyConfig(config);
      receiver.ApplyConfig(config);
    }

    method EnterFailsafe()
      requires Safe()
      modifies controller`armState, controller.Parts(), actuator
      ensures Safe() && Value() == Failed(old(Value()))
      ensures Moving() == Halted(old(Moving()), old(controller.armState))
    {
      SetArm(FAILSAFE);
      actuator.Stop();
    }

    method ApplyArm(command: IncomingCommand)
      requires Safe()
      modifies controller`armState, controller.Parts(), actuator
      ensures Safe()
      ensures controller.armState == if command.arm.Some? then command.arm.value.state else old(controller.armState)
      ensures Moving() == MotorsSwitched(old(Moving()), old(controller.armState), command)
    {
      if command.arm.Some? {
        SetArm(command.arm.value.state);
        if command.arm.value.state != ARMED {
          actuator.Stop();
        }
      }
    }

    /** The parts of a command that leave the arm state alone. */
    method ApplyRest(command: IncomingCommand, nowUs: nat)
      requires Safe()
      modifies `lastSetpointUs, `lastHeartbeatUs, controller`setpoint, controller`activeConfig, controller.Parts()
      modifies receiver`deadzoneUs, receiver`throttleExpo
      ensures Safe()
      ensures (var n := old(Value());
        Value() == Node(n.arm,
                        if command.setpoint.Some? then Limited(Wanted(command.setpoint.value)) else n.setpoint,
                        if command.config.Some? then Sane(command.config.value) else n.config,
                        if command.config.Some? then Ibus.ReceiverSettings(command.config.value) else n.settings,
                        if command.setpoint.Some? then nowUs else n.lastSetpointUs,
                        if command.heartbeat.Some? then nowUs else n.lastHeartbeatUs))
      ensures command.config.None? ==> controller.Value() == old(controller.Value())
      ensures (command.config.Some? ==>
        controller.Value() == AxesAtRest(AxesWithGains(old(controller.Value()), Sane(command.config.value))))
    {
      hide Sane, Limited, Ibus.ReceiverSettings, AxesAtRest, AxesWithGains;
      if command.setpoint.Some? {
        controller.SetSetpoint(Wanted(command.setpoint.value));
        lastSetpointUs := nowUs;
      }
      if command.heartbeat.Some? {
        lastHeartbeatUs := nowUs;
      }
      if command.config.Some? {
        Configure(command.config.value);
      }
    }

    method ApplyCommand(command: IncomingCommand, nowUs: nat)
      requires Safe()
      modifies `lastSetpointUs, `lastHeartbeatUs, controller, controller.Parts(), actuator
      modifies receiver`deadzoneUs, receiver`throttleExpo
      ensures Safe() && Value() == Commanded(old(Value()), command, nowUs)
      ensures Moving() == MotorsCommanded(old(Moving()), old(controller.armState), command)
    {
      hide Sane, Limited, Ibus.ReceiverSettings, AxesAtRest, AxesWithGains, MotorsSwitched, Halted;
      if command.emergencyStop {
        EnterFailsafe();
        return;
      }
      ApplyArm(command);
      ApplyRest(command, nowUs);
    }

    method ApplyReceiver(sample: Ibus.Sample, nowUs: nat)
      requires Safe()
      modifies `lastSetpointUs, controller, controller.Parts(), actuator
      ensures Safe() && Value() == Received(old(Value()), sample, nowUs)
      ensures Moving() == MotorsReceived(old(Moving()), old(controller.armState), sample)
    {
      hide Limited, Steered, AxesAtRest;
      if sample.failsafeSwitch {
        EnterFailsafe();
        return;
      }
      if !sample.linkOk {
        return;
      }
      var armSwitchHigh, throttleLow := sample.channels[4] > 1500, sample.channels[2] <= 1100;
      if armSwitchHigh && throttleLow && controller.armState == DISARMED {
        SetArm(ARMED);
      }
      if !armSwitchHigh && controller.armState == ARMED {
        SetArm(DISARMED);
        actuator.Stop();
      }
      controller.SetSetpoint(Steered(sample.channels));
      lastSetpointUs := nowUs;
    }

    method CheckSafety(safetyUs: nat)
      requires Safe()
      modifies controller`armState, controller.Parts(), actuator
      ensures Safe()
      ensures (var link := Ibus.Linked(receiver.lastFrameUs, safetyUs, RECEIVER_TIMEOUT_US);
        && Value() == Checked(old(Value()), link, safetyUs)
        && Moving() == MotorsChecked(old(Moving()), old(Value()), link, safetyUs))
    {
      hide AxesAtRest;
      if controller.armState == ARMED {
        if Ibus.Elapsed64(safetyUs, lastSetpointUs) > SETPOINT_TIMEOUT_US {
          EnterFailsafe();
        }
        if lastHeartbeatUs != 0 && Ibus.Elapsed64(safetyUs, lastHeartbeatUs) > HEARTBEAT_TIMEOUT_US {
          EnterFailsafe();
        }
        var link := receiver.HasLink(safetyUs, RECEIVER_TIMEOUT_US);
        if !link {
          EnterFailsafe();
        }
      }
    }

    method Estimate(m: Imu, heading: Option<real>, dtS: real) returns (state: AttitudeState)
      requires estimator.Valid() && dtS > 0.0
      modifies estimator, estimator.rollFilter, estimator.pitchFilter
      ensures estimator.Valid() && state == estimator.lastState
      ensures estimator.Value() == Estimated(old(estimator.Value()), m, heading, dtS)
    {
      state := estimator.Update(m.rollAcc, m.pitchAcc, m.rollRate, m.pitchRate, m.yawRate, dtS);
      if heading.Some? {
        state := estimator.CorrectYawFromMag(heading.value, dtS);
      }
    }

    method Drive(state: AttitudeState, dtS: real)
      requires Safe()
      modifies `reportSeq, controller.Parts(), actuator
      ensures Safe() && reportSeq == old(reportSeq) + 1
      ensures Moving() == MotorsDriven(old(Moving()), Value(), state, dtS)
    {
      var pwm := controller.Update(state, dtS);
      actuator.Output(pwm);
      reportSeq := reportSeq + 1;
    }

    /** Estimate, control, drive. The schedule has made the interval positive, so the filters and the axes divide by it
        safely. */
    method Act(m: Imu, heading: Option<real>, dtS: real)
      requires Valid() && dtS > 0.0
      modifies `reportSeq, controller.Parts(), actuator, estimator, estimator.rollFilter, estimator.pitchFilter
      ensures Valid() && estimator.Value() == Estimated(old(estimator.Value()), m, heading, dtS)
      ensures Moving() == MotorsDriven(old(Moving()), Value(), estimator.Value().last, dtS)
    {
      hide MotorsDriven, Estimated, AttitudeEstimator.Valid, Ibus.HoldsHeader;
      var state := Estimate(m, heading, dtS);
      assert Moving() == old(Moving()) && Safe();
      Drive(state, dtS);
    }

    /** The step that is due; without a sample it is failsafe. */
    method Control(imu: Option<Imu>, heading: Option<real>, dtS: real)
      requires Valid() && dtS > 0.0
      modifies `reportSeq, controller`armState, controller.Parts(), actuator
      modifies estimator, estimator.rollFilter, estimator.pitchFilter
      ensures Valid()
      ensures imu.None? ==> Value() == Failed(old(Value())) && estimator.Value() == old(estimator.Value())
      ensures imu.None? ==> Moving() == Halted(old(Moving()), old(controller.armState))
      ensures imu.Some? ==> Value() == old(Value())
      ensures imu.Some? ==> estimator.Value() == Estimated(old(estimator.Value()), imu.value, heading, dtS)
      ensures imu.Some? ==> Moving() == MotorsDriven(old(Moving()), Value(), estimator.Value().last, dtS)
    {
      hide MotorsDriven, Estimated, Failed, Halted, AttitudeEstimator.Valid, Ibus.HoldsHeader;
      if imu.None? {
        EnterFailsafe();
      } else {
        Act(imu.value, heading, dtS);
      }
    }

    /** The node is in this state between two cycles. */
    ghost predicate Shows(x: Whole, lastUs: nat, dueUs: nat)
      reads this, controller, controller.Parts(), actuator, receiver, receiver.frameBuffer
      reads estimator, estimator.rollFilter, estimator.pitchFilter
    {
      && Valid() && Value() == x.node && Moving() == x.motors && estimator.Value() == x.estimates
      && receiver.Value() == x.rx && lastUs == x.schedule.last && dueUs == x.schedule.due
    }

    /** The node is in this state when its control step may be due. */
    ghost predicate Attends(x: Whole, i: Inputs)
      reads this, controller, controller.Parts(), actuator, receiver, receiver.frameBuffer
      reads estimator, estimator.rollFilter, estimator.pitchFilter
    {
      && Valid() && Value() == Attended(x.node, CycleOf(x, i))
      && Moving() == MotorsAttended(x.motors, x.node, CycleOf(x, i))
      && estimator.Value() == x.estimates && receiver.Value() == Listened(x, i).0
    }

    method Command(i: Inputs, ghost n: Node, ghost m: Motors)
      requires Safe() && Value() == n && Moving() == m
      modifies `lastSetpointUs, `lastHeartbeatUs, controller, controller.Parts(), actuator
      modifies receiver`deadzoneUs, receiver`throttleExpo
      ensures Safe() && Value() == Answered(n, i.polled, i.command, i.nowUs)
      ensures Moving() == MotorsAnswered(m, n, i.polled, i.command)
    {
      hide Commanded, MotorsCommanded, Halted;
      if !i.polled {
        EnterFailsafe();
      }
      ApplyCommand(i.command, i.nowUs);
    }

    /** The transport's answer, the command, and the receiver's poll. */
    method Take(i: Inputs, ghost x: Whole) returns (sample: Ibus.Sample)
      requires Valid() && Value() == x.node && Moving() == x.motors && receiver.Value() == x.rx
      modifies `lastSetpointUs, `lastHeartbeatUs, controller, controller.Parts(), actuator
      modifies receiver, receiver.frameBuffer
      ensures Valid() && Value() == Answered(x.node, i.polled, i.command, i.nowUs)
      ensures Moving() == MotorsAnswered(x.motors, x.node, i.polled, i.command)
      ensures (receiver.Value(), sample) == Listened(x, i)
    {
      hide Ibus.Polled, Answered, MotorsAnswered, AttitudeEstimator.Valid;
      Command(i, x.node, x.motors);
      sample := receiver.Poll(i.raw, i.stamps, i.pollUs);
    }

    method Judge(sample: Ibus.Sample, nowUs: nat, safetyUs: nat, ghost n: Node, ghost m: Motors)
      requires Safe() && Value() == n && Moving() == m
      modifies `lastSetpointUs, controller, controller.Parts(), actuator
      ensures Safe()
      ensures (var link := Ibus.Linked(receiver.lastFrameUs, safetyUs, RECEIVER_TIMEOUT_US);
        && Value() == Checked(Received(n, sample, nowUs), link, safetyUs)
        && Moving() == MotorsChecked(MotorsReceived(m, n.arm, sample), Received(n, sample, nowUs), link, safetyUs))
    {
      hide Received, Checked, Ibus.Linked, MotorsReceived, MotorsChecked;
      ApplyReceiver(sample, nowUs);
      CheckSafety(safetyUs);
    }

    /** The cycle up to its control step. */
    method Listen(i: Inputs, ghost x: Whole)
      requires Valid() && Value() == x.node && Moving() == x.motors && receiver.Value() == x.rx
      modifies `lastSetpointUs, `lastHeartbeatUs, controller, controller.Parts(), actuator
      modifies receiver, receiver.frameBuffer
      ensures Valid() && Value() == Attended(x.node, CycleOf(x, i)) && receiver.Value() == Listened(x, i).0
      ensures Moving() == MotorsAttended(x.motors, x.node, CycleOf(x, i))
    {
      hide Listened, Answered, Received, Checked, Ibus.Linked, AttitudeEstimator.Valid, Ibus.HoldsHeader;
      hide MotorsAnswered, MotorsReceived, MotorsChecked, CycleOf, Attended, MotorsAttended;
      AttendedParts(x, i);
      var sample := Take(i, x);
      Judge(sample, i.nowUs, i.safetyUs, Value(), Moving());
    }

    /** The control step, if it is due. */
    method Finish(i: Inputs, lastUs: nat, dueUs: nat, ghost x: Whole) returns (last: nat, due: nat)
      requires Attends(x, i) && lastUs == x.schedule.last && dueUs == x.schedule.due
      modifies `reportSeq, controller`armState, controller.Parts(), actuator
      modifies estimator, estimator.rollFilter, estimator.pitchFilter
      ensures Shows(Stepped(x, i), last, due)
    {
      hide Stepped, CycleOf, Listened, Attended, MotorsAttended, MotorsDriven, Estimated, Halted, Failed;
      hide AttitudeEstimator.Valid, Ibus.HoldsHeader;
      StepParts(x, i);
      last, due := lastUs, dueUs;
      if i.controlUs < due {
        return;
      }
      var elapsedUs := i.controlUs - last;
      last := i.controlUs;
      due := CatchUp(due, i.controlUs);
      var dtS := elapsedUs as real / 1_000_000.0;
      Control(i.imu, i.heading, dtS);
    }

    method RunCycle(i: Inputs, lastUs: nat, dueUs: nat, ghost x: Whole) returns (last: nat, due: nat)
      requires Shows(x, lastUs, dueUs)
      modifies this, controller, controller.Parts(), actuator, receiver, receiver.frameBuffer
      modifies estimator, estimator.rollFilter, estimator.pitchFilter
      ensures Shows(Stepped(x, i), last, due)
    {
      hide Stepped, CycleOf, Listened, Attended, MotorsAttended, AttitudeEstimator.Valid, Ibus.HoldsHeader;
      Listen(i, x);
      last, due := Finish(i, lastUs, dueUs, x);
    }

    method Boot(initUs: nat)
      requires Safe() && controller.armState == DISARMED
      modifies `lastSetpointUs, `lastHeartbeatUs, `reportSeq, controller`activeConfig, controller.Parts()
      modifies receiver`deadzoneUs, receiver`throttleExpo
      ensures Safe() && Value() == Booted(initUs).(setpoint := controller.setpoint)
      ensures controller.Value() == AxesAtRest(AxesWithGains(old(controller.Value()), Sane(DEFAULT_CONFIG)))
    {
      Configure(DEFAULT_CONFIG);
      lastSetpointUs, lastHeartbeatUs, reportSeq := initUs, 0, 0;
    }

    method Disarm()
      requires controller.Valid()
      modifies controller`armState, controller.Parts(), actuator
      ensures Safe() && Value() == old(Value()).(arm := DISARMED)
      ensures Moving() == Switched(old(Moving()), old(controller.armState), DISARMED).(pwm := ALL_IDLE)
    {
      SetArm(DISARMED);
      actuator.Stop();
    }

    method Init(initUs: nat)
      requires Valid()
      modifies `lastSetpointUs, `lastHeartbeatUs, `reportSeq, controller, controller.Parts(), actuator, receiver
      ensures Valid() && Value() == Booted(initUs).(setpoint := old(controller.setpoint))
      ensures receiver.Value() == Ibus.NO_RX
      ensures Moving() == Motors(AxesAtRest(AxesWithGains(old(controller.Value()), Sane(DEFAULT_CONFIG))), ALL_IDLE)
    {
      hide Booted, Sane, AttitudeEstimator.Valid;
      receiver.Init();
      Disarm();
      Boot(initUs);
    }

    method RunCycles(inputs: seq<Inputs>, bootUs: nat, ghost x: Whole) returns (lastControlUs: nat, nextDueUs: nat)
      requires x.schedule == Started(bootUs) && Shows(x, bootUs, bootUs + STEP_US)
      modifies this, controller, controller.Parts(), actuator, receiver, receiver.frameBuffer
      modifies estimator, estimator.rollFilter, estimator.pitchFilter
      ensures Shows(After(x, inputs), lastControlUs, nextDueUs)
    {
      lastControlUs, nextDueUs := bootUs, bootUs + STEP_US;
      for k := 0 to |inputs|
        invariant Shows(After(x, inputs[..k]), lastControlUs, nextDueUs)
      {
        hide Stepped, After;
        OneMoreInput(x, inputs, k);
        lastControlUs, nextDueUs := RunCycle(inputs[k], lastControlUs, nextDueUs, After(x, inputs[..k]));
      }
      assert inputs[..|inputs|] == inputs;
    }

    /** A whole run: node, motors, filters, receiver and schedule are where the inputs lead, and then the node is
        disarmed with its motors idle. */
    method Run(inputs: seq<Inputs>, initUs: nat, bootUs: nat) returns (lastControlUs: nat, nextDueUs: nat)
      requires Valid()
      modifies this, controller, controller.Parts(), actuator, receiver, receiver.frameBuffer
      modifies estimator, estimator.rollFilter, estimator.pitchFilter
      ensures (var start := Begun(
          initUs, bootUs, old(controller.setpoint), old(controller.Value()), old(estimator.Value()));
        Shows(Landed(After(start, inputs)), lastControlUs, nextDueUs))
    {
      hide After, AttitudeEstimator.Valid, Ibus.HoldsHeader;
      ghost var start := Begun(initUs, bootUs, controller.setpoint, controller.Value(), estimator.Value());
      Init(initUs);
      lastControlUs, nextDueUs := RunCycles(inputs, bootUs, start);
      Disarm();
    }
  }
}
