/** The bring-up flight loop: one poll reads the radio, the sensors and the shared region, decides whether the
    motors may turn, and programs four pulses. Its globals are the fields of one class; what a poll does to
    them is also said by one function on values, about which whole runs are reasoned. */
module FlightLoop {
  import opened Numbers
  import opened Options
  import opened SharedSlot
  import opened Protocol
  import opened Mixer

  const SWITCH_THRESHOLD_US := 1500
  const LINK_TIMEOUT_MS := 300
  const ESC_DELAY_MS := 3000
  const PROBE_PERIOD_MS := 20

  /** Tick counters are 32 bits wide and their differences wrap around. */
  type Tick = t: int | 0 <= t < 0x1_0000_0000

  /** Ticks per second. */
  type Hz = n: int | n > 0 witness 1000

  function Elapsed(now: Tick, since: Tick): Tick {
    (now - since) % 0x1_0000_0000
  }

  function SinceMs(hz: Hz, now: Tick, since: Tick): Tick {
    (Elapsed(now, since) * (1000 / hz)) % 0x1_0000_0000
  }

  function TicksOf(hz: Hz, ms: nat): int {
    ms * hz / 1000
  }

  lemma WholePeriods(e: nat, hz: Hz)
    requires 1000 % hz == 0
    ensures e * (1000 / hz) * hz == 1000 * e
  {
    assert (1000 / hz) * hz == 1000;
    assert e * (1000 / hz) * hz == e * ((1000 / hz) * hz);
  }

  lemma BelowPeriods(e: nat, k: nat, hz: Hz, w: nat)
    requires e * k * hz < w * hz
    ensures e * k < w
  {
    assert (e * k - w) * hz == e * k * hz - w * hz < 0;
  }

  /** An age in milliseconds, as long as it fits into 32 bits. */
  predicate TellsTime(hz: Hz, now: Tick, since: Tick) {
    Elapsed(now, since) * 1000 < 0x1_0000_0000 * hz ==> SinceMs(hz, now, since) * hz == 1000 * Elapsed(now, since)
  }

  lemma WholePeriodsFit(e: nat, k: nat, hz: Hz)
    requires k * hz == 1000 && e * 1000 < 0x1_0000_0000 * hz && e * k * hz == 1000 * e
    ensures e * k < 0x1_0000_0000
  {
    BelowPeriods(e, k, hz, 0x1_0000_0000);
  }

  lemma WholePeriodsTellTime(hz: Hz, now: Tick, since: Tick)
    requires 1000 % hz == 0
    ensures TellsTime(hz, now, since)
  {
    hide Elapsed;
    var e, k := Elapsed(now, since), 1000 / hz;
    WholePeriods(e, hz);
    if e * 1000 < 0x1_0000_0000 * hz {
      WholePeriodsFit(e, k, hz);
    }
  }

  /** The milliseconds by which the frame's age and the delay of the motor controllers are judged are milliseconds if
      and only if the tick rate divides 1000. */
  lemma MillisecondsExactly(hz: Hz)
    ensures (forall now: Tick, since: Tick :: TellsTime(hz, now, since)) <==> 1000 % hz == 0
  {
    if 1000 % hz == 0 {
      forall now: Tick, since: Tick ensures TellsTime(hz, now, since) {
        WholePeriodsTellTime(hz, now, since);
      }
    } else {
      assert Elapsed(1, 0) == 1 && SinceMs(hz, 1, 0) == 1000 / hz;
      assert (1000 / hz) * hz == 1000 - 1000 % hz;
      assert !TellsTime(hz, 1, 0);
    }
  }

  lemma FastTicksStandStill(hz: Hz, now: Tick, since: Tick)
    requires hz > 1000
    ensures SinceMs(hz, now, since) == 0
  {
    hide Elapsed;
    assert 1000 / hz == 0;
  }

  lemma TicksOfExactly(hz: Hz, ms: nat)
    ensures TicksOf(hz, ms) * 1000 <= ms * hz < (TicksOf(hz, ms) + 1) * 1000
  {
  }

  lemma MoreThanMilliseconds(e: nat, age: nat, ms: nat, hz: Hz)
    requires age * hz == 1000 * e
    ensures age > ms <==> 1000 * e > ms * hz
  {
    assert (age - ms) * hz == age * hz - ms * hz;
    if age > ms {
      assert (age - ms) * hz > 0;
    } else {
      assert (ms - age) * hz >= 0;
    }
  }

  /** If it does, the two clocks judge the same age alike. */
  lemma ClocksJudgeAlike(hz: Hz, now: Tick, since: Tick, ms: nat)
    requires 1000 % hz == 0 && Elapsed(now, since) * 1000 < 0x1_0000_0000 * hz
    ensures SinceMs(hz, now, since) > ms <==> Elapsed(now, since) > TicksOf(hz, ms)
  {
    WholePeriodsTellTime(hz, now, since);
    TicksOfExactly(hz, ms);
    MoreThanMilliseconds(Elapsed(now, since), SinceMs(hz, now, since), ms, hz);
  }

  datatype Reason = Ok | Failsafe | SensorNotReady | NotArmed

  /** A frame the parser accepted, and the tick at which it did. */
  datatype Frame = Frame(sticks: Sticks, tick: Tick)

  datatype Link = Link(frames: nat, pollTick: Tick, frameTick: Tick, sticks: Sticks)

  datatype Gate = Gate(seenLow: bool, latched: bool, prevSwitch: bool)

  datatype Emergency = Emergency(latched: bool, number: nat)

  datatype Esc = Esc(startTick: Tick, done: bool)

  /** What one poll takes from outside: the tick it starts at, the frames it receives, what the sensors would
      say if probed, the shared region if it is mapped, and the ticks of the two later clock readings. */
  datatype Inputs = Inputs(
    now: Tick, burst: seq<Frame>, probe: Body, region: Option<Region>, freshTick: Tick, escTick: Tick)

  datatype Flight = Flight(
    link: Link, probeTick: Tick, body: Body, rc: Rc, gate: Gate, emergency: Emergency, tuning: Tuning,
    esc: Esc, enabled: bool, pwm: Quad)

  const INITIAL := Flight(
    Link(0, 0, 0, Sticks(0, 0, 0, 0, 0)), 0, Body(false, false, 0, 0, 0, 0, 0),
    Rc(false, 1500, 1500, 1000, 1500, false), Gate(false, false, false), Emergency(false, 0),
    Tuning(20, 12, 12, 16, 180, 0, 0), Esc(0, false), false, ALL_IDLE)

  // ---------- What one poll does, on values ----------

  function LinkAfter(link: Link, now: Tick, burst: seq<Frame>): Link {
    if burst == [] then link
    else Link(link.frames + |burst|, now, burst[|burst| - 1].tick, burst[|burst| - 1].sticks)
  }

  predicate Lost(hz: Hz, link: Link, now: Tick) {
    link.frames == 0 || Elapsed(now, link.pollTick) > TicksOf(hz, LINK_TIMEOUT_MS)
  }

  predicate Stale(hz: Hz, link: Link, tick: Tick) {
    link.frameTick == 0 || SinceMs(hz, tick, link.frameTick) > LINK_TIMEOUT_MS
  }

  function Heard(hz: Hz, link: Link, now: Tick): Rc {
    if Lost(hz, link, now) then Rc(false, 1500, 1500, 1000, 1500, false)
    else
      var s := link.sticks;
      Rc(true, s.roll, s.pitch, s.throttle, s.yaw, s.arm > SWITCH_THRESHOLD_US)
  }

  /** The second look at the age of the link, on its own pair of timestamps. */
  function Refreshed(rc: Rc, neverHeard: bool, stale: bool): Rc {
    if neverHeard then rc.(valid := false)
    else if stale then rc.(valid := false, throttle := 1000, armSwitch := false)
    else rc
  }

  /** The pilot holds a valid link, ready sensors and a low enough throttle. */
  predicate Fit(rc: Rc, ready: bool) {
    rc.valid && ready && rc.throttle <= KILL_US
  }

  function GateAfter(gate: Gate, rc: Rc, stale: bool, ready: bool): Gate {
    var seen := gate.seenLow && !stale;
    var arming := !gate.latched && rc.throttle <= ARM_MAX_US && seen && !gate.prevSwitch;
    Gate(seen || (Fit(rc, ready) && !rc.armSwitch),
         Fit(rc, ready) && rc.armSwitch && (gate.latched || arming),
         rc.armSwitch)
  }

  predicate Readable(region: Option<Region>) {
    region.Some? && Formatted(region.value)
  }

  function EmergencyAfter(e: Emergency, region: Option<Region>): Emergency {
    if Readable(region) && region.value.emergency.number != e.number
    then Emergency(region.value.emergency.payload.reason != 0, region.value.emergency.number)
    else e
  }

  function DivFor(v: real, fallback: int, lo: int, hi: int): int
    requires lo <= hi
  {
    if v < lo as real || v > hi as real then fallback else Limit(v.Floor, lo, hi)
  }

  predicate IsNew(t: Tuning, slot: Slot<FlightConfig>) {
    && (slot.number != t.slotSeq || slot.payload.updateSeq != t.updateSeq)
    && (slot.number != 0 || slot.payload.updateSeq != 0)
  }

  /** One requested rate divider serves all three axes; out of range it falls back to the roll divider. */
  function Retuned(t: Tuning, slot: Slot<FlightConfig>): Tuning {
    if !IsNew(t, slot) then t
    else
      var rate := DivFor(slot.payload.rateP, t.rollDiv, 8, 80);
      Tuning(if slot.payload.deadzoneUs == 0 then t.deadzone else Limit(slot.payload.deadzoneUs, 5, 80),
             rate, rate, rate, DivFor(slot.payload.angleP, t.angleDiv, 100, 1200),
             slot.number, slot.payload.updateSeq)
  }

  function TuningAfter(t: Tuning, region: Option<Region>): Tuning {
    if Readable(region) then Retuned(t, region.value.config) else t
  }

  function EscAfter(hz: Hz, esc: Esc, tick: Tick): Esc {
    if esc.startTick == 0 then Esc(tick, false)
    else Esc(esc.startTick, esc.done || SinceMs(hz, tick, esc.startTick) >= ESC_DELAY_MS)
  }

  predicate ProbeDue(hz: Hz, now: Tick, probeTick: Tick) {
    Elapsed(now, probeTick) >= TicksOf(hz, PROBE_PERIOD_MS)
  }

  /** No update of the configuration can bring a divider out of its range, so the loop never divides by zero. */
  lemma TuningStaysTuned(t: Tuning, region: Option<Region>)
    requires Tuned(t)
    ensures Tuned(TuningAfter(t, region))
  {
  }

  /** Everything a poll decides before it turns to the motors. */
  function Decided(hz: Hz, s: Flight, i: Inputs): (d: Flight)
    requires Tuned(s.tuning)
    ensures Tuned(d.tuning)
  {
    var link := LinkAfter(s.link, i.now, i.burst);
    var due := ProbeDue(hz, i.now, s.probeTick);
    var body := if due then i.probe else s.body;
    var stale := Stale(hz, link, i.freshTick);
    var rc := Refreshed(Heard(hz, link, i.now), link.frameTick == 0, stale);
    TuningStaysTuned(s.tuning, i.region);
    s.(link := link, probeTick := if due then i.now else s.probeTick, body := body, rc := rc,
       gate := GateAfter(s.gate, rc, stale, body.ready),
       emergency := EmergencyAfter(s.emergency, i.region), tuning := TuningAfter(s.tuning, i.region))
  }

  /** The motors turn when the gate is latched and no emergency is. */
  function AfterPoll(hz: Hz, s: Flight, i: Inputs): (t: Flight)
    requires Tuned(s.tuning)
    ensures Tuned(t.tuning)
  {
    var d := Decided(hz, s, i);
    var enabled := d.gate.latched && !d.emergency.latched;
    d.(enabled := enabled, pwm := if enabled then PulsesNow(d.rc, d.body, d.tuning) else ALL_IDLE,
       esc := EscAfter(hz, s.esc, i.escTick))
  }

  /** Why the outputs are off. */
  function ReasonFor(stopped: bool, lost: bool, ready: bool, armed: bool): Reason {
    if stopped || lost then Failsafe
    else if !ready then SensorNotReady
    else if !armed then NotArmed
    else Ok
  }

  /** After every poll the reason says what is wrong, the worst first, and that nothing is exactly when the motors are
      enabled. */
  lemma ReasonExactly(hz: Hz, s: Flight, i: Inputs)
    requires Tuned(s.tuning)
    ensures (var t := AfterPoll(hz, s, i);
      var lost := Lost(hz, t.link, i.now);
      var reason := ReasonFor(t.emergency.latched, lost, t.body.ready, t.gate.latched);
      && (reason == Ok <==> t.enabled)
      && (reason == Failsafe <==> t.emergency.latched || lost)
      && (reason == SensorNotReady <==> !t.emergency.latched && !lost && !t.body.ready)
      && (reason == NotArmed <==> !t.emergency.latched && !lost && t.body.ready && !t.gate.latched))
  {
  }

  /** The pulses programmed into the four channels, in nanoseconds. */
  function Programmed(armed: bool, escDone: bool, us: int): int {
    1000 * (if armed && escDone then Tested(us) else IDLE_US)
  }

  // ---------- What a configuration changes ----------

  predicate RoundedDown(v: int, x: real) { v as real <= x < v as real + 1.0 }

  /** A configuration that has been published and differs from the last in one of its two numbers changes exactly what
      it asks for within the limits: one rate divider for all three axes and an angle divider, rounded down, and a
      deadzone, brought within its limits unless it is zero. Any other changes nothing. */
  lemma RetunedExactly(t: Tuning, slot: Slot<FlightConfig>)
    ensures (var u, c := Retuned(t, slot), slot.payload;
      if (slot.number == t.slotSeq && c.updateSeq == t.updateSeq) || (slot.number == 0 && c.updateSeq == 0) then u == t
      else
        && u.rollDiv == u.pitchDiv == u.yawDiv
        && (if 8.0 <= c.rateP <= 80.0 then RoundedDown(u.rollDiv, c.rateP) else u.rollDiv == t.rollDiv)
        && (if 100.0 <= c.angleP <= 1200.0 then RoundedDown(u.angleDiv, c.angleP) else u.angleDiv == t.angleDiv)
        && (c.deadzoneUs == 0 ==> u.deadzone == t.deadzone)
        && (5 <= c.deadzoneUs <= 80 ==> u.deadzone == c.deadzoneUs)
        && (0 < c.deadzoneUs < 5 ==> u.deadzone == 5) && (c.deadzoneUs > 80 ==> u.deadzone == 80)
        && u.slotSeq == slot.number && u.updateSeq == c.updateSeq)
  {
  }

  // ---------- Refused dividers ----------

  predicate SameDividers(t: Tuning) { t.rollDiv == t.pitchDiv == t.yawDiv }

  predicate RefusedRate(c: FlightConfig) { c.rateP < 8.0 || c.rateP > 80.0 }

  predicate RefusedAngle(c: FlightConfig) { c.angleP < 100.0 || c.angleP > 1200.0 }

  /** A rate divider that is refused leaves the three dividers as they are exactly when they already agree:
      otherwise all three become the roll divider. A refused angle divider always leaves its own as it is. */
  lemma RefusedRateKeepsDividersExactly(t: Tuning, slot: Slot<FlightConfig>)
    requires IsNew(t, slot) && RefusedRate(slot.payload)
    ensures (var u := Retuned(t, slot);
      && SameDividers(u) && u.rollDiv == t.rollDiv
      && (u.rollDiv == t.rollDiv && u.pitchDiv == t.pitchDiv && u.yawDiv == t.yawDiv <==> SameDividers(t))
      && (RefusedAngle(slot.payload) ==> u.angleDiv == t.angleDiv))
  {
  }

  /** From power-on the default configuration, whose rate divider is refused, takes the yaw divider from 16 to 12. */
  lemma RefusedRateChangesYaw()
    ensures (var slot := Slot(1, DEFAULT_CONFIG, 0);
      && IsNew(INITIAL.tuning, slot) && RefusedRate(slot.payload)
      && INITIAL.tuning.yawDiv == 16 && Retuned(INITIAL.tuning, slot).yawDiv == 12)
  {
  }

  /** That makes the yaw feedback stronger: never weaker for any error, and stronger for some. */
  lemma RefusedRateSharpensYaw(slot: Slot<FlightConfig>)
    requires IsNew(INITIAL.tuning, slot) && RefusedRate(slot.payload)
    ensures Retuned(INITIAL.tuning, slot).yawDiv > 0
    ensures (var div := Retuned(INITIAL.tuning, slot).yawDiv;
      && (forall error: int :: Abs(Correction(error, div, 40)) >= Abs(Correction(error, INITIAL.tuning.yawDiv, 40)))
      && Correction(48, div, 40) > Correction(48, INITIAL.tuning.yawDiv, 40))
  {
    forall error: int ensures Abs(Correction(error, 12, 40)) >= Abs(Correction(error, 16, 40)) {
      SmallerDivCorrectsMore(error, 12, 16, 40);
    }
    TimesIsDivision(48, 12);
    TimesIsDivision(48, 16);
  }

  // ---------- The loop itself ----------

  /** The globals of the loop, related ones kept together in a record. */
  class BringUp {
    const hz: Hz
    var link: Link
    var lastProbeTick: Tick
    var body: Body
    var rc: Rc
    var rcArmAllowed: bool
    var gate: Gate
    var emergency: Emergency
    var config: Tuning
    var sp: Setpoint
    var pid: Torque
    var mix: Quad
    var motorArmed: bool
    var outputEnabled: bool
    var safetyReason: Reason
    const motorPwm: array<int>
    var esc: Esc
    var backendReady: bool
    const pulseNs: array<int>

    ghost function Pwm(): Quad
      requires motorPwm.Length == 4
      reads motorPwm
    {
      Quad(motorPwm[0], motorPwm[1], motorPwm[2], motorPwm[3])
    }

    ghost function Now(): Flight
      requires motorPwm.Length == 4
      reads this, motorPwm
    {
      Flight(link, lastProbeTick, body, rc, gate, emergency, config, esc, outputEnabled, Pwm())
    }

    ghost predicate Valid()
      reads this
    {
      motorPwm.Length == 4 && pulseNs.Length == 4 && motorPwm != pulseNs && Tuned(config)
    }

    constructor (tickRate: Hz)
      ensures Valid() && fresh(motorPwm) && fresh(pulseNs) && hz == tickRate
      ensures Now() == INITIAL
    {
      hz := tickRate;
      link, lastProbeTick := Link(0, 0, 0, Sticks(0, 0, 0, 0, 0)), 0;
      body := Body(false, false, 0, 0, 0, 0, 0);
      rc, rcArmAllowed := Rc(false, 1500, 1500, 1000, 1500, false), false;
      gate, emergency := Gate(false, false, false), Emergency(false, 0);
      config := Tuning(20, 12, 12, 16, 180, 0, 0);
      sp, pid, mix := Setpoint(0, 0, 0, 0, 0, 1000), NO_TORQUE, ALL_IDLE;
      motorArmed, outputEnabled, safetyReason := false, false, Ok;
      esc, backendReady := Esc(0, false), false;
      motorPwm := new int[4](i => 1000);
      pulseNs := new int[4](i => 0);
    }

    method SetAll(us: int)
      requires motorPwm.Length == 4
      modifies motorPwm
      ensures (var v := Limit(us, IDLE_US, PWM_MAX_US); Pwm() == Quad(v, v, v, v))
    {
      var v := Limit(us, IDLE_US, PWM_MAX_US);
      motorPwm[0], motorPwm[1], motorPwm[2], motorPwm[3] := v, v, v, v;
    }

    method ForceSafe(reason: Reason)
      requires motorPwm.Length == 4
      modifies `motorArmed, `outputEnabled, `safetyReason, `pid, `mix, motorPwm
      ensures !motorArmed && !outputEnabled && safetyReason == reason
      ensures pid == NO_TORQUE && mix == ALL_IDLE && Pwm() == ALL_IDLE
    {
      motorArmed := false;
      outputEnabled := false;
      safetyReason := reason;
      pid := Torque(0, 0, 0);
      mix := Quad(IDLE_US, IDLE_US, IDLE_US, IDLE_US);
      SetAll(IDLE_US);
    }

    method Receive(now: Tick, burst: seq<Frame>)
      modifies `link
      ensures link == LinkAfter(old(link), now, burst)
    {
      for k := 0 to |burst|
        invariant link == LinkAfter(old(link), now, burst[..k])
      {
        link := link.(sticks := burst[k].sticks, pollTick := now);
        link := link.(frameTick := burst[k].tick);
        link := link.(frames := link.frames + 1);
      }
      assert burst[..|burst|] == burst;
    }

    method ReadRc(now: Tick) returns (failsafe: bool)
      modifies `rc
      ensures failsafe == Lost(hz, link, now) && rc == Heard(hz, link, now)
    {
      failsafe := link.frames == 0 || Elapsed(now, link.pollTick) > TicksOf(hz, LINK_TIMEOUT_MS);
      if !failsafe && link.frames > 0 {
        var ch := link.sticks;
        rc := Rc(true, ch.roll, ch.pitch, ch.throttle, ch.yaw, ch.arm > SWITCH_THRESHOLD_US);
      } else {
        rc := Rc(false, 1500, 1500, 1000, 1500, false);
      }
    }

    method PollConfig(slot: Slot<FlightConfig>)
      requires Tuned(config)
      modifies `config
      ensures Tuned(config) && config == Retuned(old(config), slot)
    {
      var number, updateSeq := slot.number, slot.payload.updateSeq;
      if (number != config.slotSeq || updateSeq != config.updateSeq) && (number != 0 || updateSeq != 0) {
        config := config.(slotSeq := number, updateSeq := updateSeq);
        var deadzone := slot.payload.deadzoneUs;
        if deadzone != 0 {
          config := config.(deadzone := Limit(deadzone, 5, 80));
        }
        var rateDiv := DivFor(slot.payload.rateP, config.rollDiv, 8, 80);
        var angleDiv := DivFor(slot.payload.angleP, config.angleDiv, 100, 1200);
        config := config.(rollDiv := rateDiv, pitchDiv := rateDiv, yawDiv := rateDiv);
        config := config.(angleDiv := angleDiv);
      }
    }

    method PollRegion(region: Option<Region>)
      requires Valid()
      modifies `emergency, `config, `motorArmed, `outputEnabled, `safetyReason, `pid, `mix, motorPwm
      ensures Valid()
      ensures emergency == EmergencyAfter(old(emergency), region)
      ensures config == TuningAfter(old(config), region)
      ensures Readable(region) && emergency.latched ==> !outputEnabled && Pwm() == ALL_IDLE
    {
      if region.None? {
        return;
      }
      var r := region.value;
      if r.magic != REGION_MAGIC || r.version != REGION_VERSION {
        return;
      }
      if r.emergency.number != emergency.number {
        emergency := emergency.(number := r.emergency.number);
        if r.emergency.payload.reason == 0 {
          emergency := emergency.(latched := false);
        } else {
          emergency := emergency.(latched := true);
        }
      }
      if emergency.latched {
        ForceSafe(Failsafe);
      }
      PollConfig(r.config);
    }

    method UpdateFreshness(tick: Tick)
      modifies `rc, `rcArmAllowed, `gate, `motorArmed
      ensures rc == Refreshed(old(rc), link.frameTick == 0, Stale(hz, link, tick))
      ensures (gate == if Stale(hz, link, tick) then Gate(false, false, old(gate.prevSwitch)) else old(gate))
      ensures rcArmAllowed ==> old(rcArmAllowed)
    {
      if link.frameTick == 0 {
        rc := rc.(valid := false);
        rcArmAllowed := false;
        gate := gate.(seenLow := false, latched := false);
        motorArmed := false;
        return;
      }
      if SinceMs(hz, tick, link.frameTick) > LINK_TIMEOUT_MS {
        rc := rc.(valid := false);
        rcArmAllowed := false;
        gate := gate.(seenLow := false, latched := false);
        motorArmed := false;
        rc := rc.(throttle := 1000, armSwitch := false);
      }
    }

    /** After the gate, armed, allowed and latched say the same. */
    method UpdateArmGate(tick: Tick)
      modifies `rc, `rcArmAllowed, `gate, `motorArmed
      ensures rc == Refreshed(old(rc), link.frameTick == 0, Stale(hz, link, tick))
      ensures gate == GateAfter(old(gate), rc, Stale(hz, link, tick), body.ready)
      ensures motorArmed == rcArmAllowed == gate.latched
      ensures rc.valid ==> rc == old(rc)
    {
      rcArmAllowed := false;
      UpdateFreshness(tick);
      if !rc.valid {
        motorArmed := false;
        gate := gate.(latched := false, prevSwitch := rc.armSwitch);
        return;
      }
      if !body.ready {
        motorArmed := false;
        gate := gate.(latched := false, prevSwitch := rc.armSwitch);
        return;
      }
      if rc.throttle > KILL_US {
        motorArmed := false;
        gate := gate.(latched := false, prevSwitch := rc.armSwitch);
        return;
      }
      if !rc.armSwitch {
        gate := gate.(seenLow := true, latched := false);
        motorArmed := false;
        gate := gate.(prevSwitch := rc.armSwitch);
        return;
      }
      if gate.latched {
        gate := gate.(prevSwitch := rc.armSwitch);
        rcArmAllowed, motorArmed := true, true;
        return;
      }
      if rc.throttle > ARM_MAX_US {
        motorArmed := false;
        gate := gate.(prevSwitch := rc.armSwitch);
        return;
      }
      if gate.seenLow && !gate.prevSwitch && rc.armSwitch {
        gate := gate.(latched := true);
      }
      gate := gate.(prevSwitch := rc.armSwitch);
      if !gate.latched {
        motorArmed := false;
        return;
      }
      rcArmAllowed, motorArmed := true, true;
    }

    method UpdateSetpoint()
      modifies `sp
      ensures sp == SetpointFor(rc, config.deadzone)
      ensures rc.valid ==> sp.throttle == rc.throttle
    {
      sp := Setpoint(0, 0, 0, 0, 0, rc.throttle);
      if !rc.valid {
        sp := sp.(throttle := IDLE_US);
        return;
      }
      var rollIn := Deflection(rc.roll, config.deadzone);
      var pitchIn := -1 * Deflection(rc.pitch, config.deadzone);
      var yawIn := Deflection(rc.yaw, config.deadzone);
      sp := sp.(roll := Quotient(rollIn * ANGLE_SPAN_CD, 500));
      sp := sp.(pitch := Quotient(pitchIn * ANGLE_SPAN_CD, 500));
      sp := sp.(rollRate := Quotient(rollIn * ROLL_RATE_SPAN, 500));
      sp := sp.(pitchRate := Quotient(pitchIn * PITCH_RATE_SPAN, 500));
      sp := sp.(yawRate := Quotient(yawIn * YAW_RATE_SPAN, 500));
    }

    method UpdateTorques()
      requires Tuned(config)
      modifies `pid
      ensures pid == TorqueFor(sp, body, config)
    {
      var rateRoll := Correction(sp.rollRate - body.rollRate, config.rollDiv, TORQUE_MAX_US);
      var ratePitch := Correction(sp.pitchRate - body.pitchRate, config.pitchDiv, TORQUE_MAX_US);
      var rateYaw := Correction(sp.yawRate - body.yawRate, config.yawDiv, TORQUE_MAX_US);
      var roll: int, pitch: int := body.roll, body.pitch;
      var angleRoll, anglePitch := 0, 0;
      if sp.rollRate == 0 {
        angleRoll := Correction(-roll, config.angleDiv, ASSIST_MAX_US);
      }
      if sp.pitchRate == 0 {
        anglePitch := Correction(-pitch, config.angleDiv, ASSIST_MAX_US);
      }
      pid := Torque(Limit(rateRoll + angleRoll, -TORQUE_MAX_US, TORQUE_MAX_US),
                    Limit(ratePitch + anglePitch, -TORQUE_MAX_US, TORQUE_MAX_US),
                    Limit(rateYaw, -TORQUE_MAX_US, TORQUE_MAX_US));
    }

    method UpdatePid()
      requires Tuned(config)
      modifies `sp, `pid
      ensures pid == TorqueNow(rc, body, config)
      ensures sp == if body.ready && body.attOk && rc.valid then SetpointFor(rc, config.deadzone) else old(sp)
    {
      pid := NO_TORQUE;
      if !body.ready || !body.attOk || !rc.valid {
        return;
      }
      UpdateSetpoint();
      UpdateTorques();
    }

    method ApplyThrottleFloor()
      modifies `sp
      ensures sp == old(sp).(throttle := ActiveThrottle(old(sp.throttle)))
    {
      if sp.throttle > IDLE_US && sp.throttle < ACTIVE_MIN_US {
        sp := sp.(throttle := ACTIVE_MIN_US);
      }
      if sp.throttle > TEST_MAX_US {
        sp := sp.(throttle := TEST_MAX_US);
      }
    }

    method UpdateMixer()
      modifies `mix
      ensures mix == Mix(sp.throttle, pid)
    {
      var t := Limit(sp.throttle, IDLE_US, TEST_MAX_US);
      var m0 := t + pid.pitch + pid.roll - pid.yaw;
      var m1 := t + pid.pitch - pid.roll + pid.yaw;
      var m2 := t - pid.pitch - pid.roll - pid.yaw;
      var m3 := t - pid.pitch + pid.roll + pid.yaw;
      mix := mix.(lf := Limit(m0, IDLE_US, TEST_MAX_US));
      mix := mix.(rf := Limit(m1, IDLE_US, TEST_MAX_US));
      mix := mix.(rr := Limit(m2, IDLE_US, TEST_MAX_US));
      mix := mix.(lb := Limit(m3, IDLE_US, TEST_MAX_US));
    }

    method ApplyTrim(motor: nat, us: int) returns (out: int)
      ensures out == if motor < 4 then Trimmed(motor, us, sp.throttle) else Tested(us)
    {
      var trim, minSpin := 0, IDLE_US;
      if motor < 4 {
        trim := Limit(TRIM_US.At(motor), -TRIM_LIMIT_US, TRIM_LIMIT_US);
        minSpin := Limit(MIN_SPIN_US.At(motor), IDLE_US, TEST_MAX_US);
      }
      out := us + trim;
      if sp.throttle >= MIN_SPIN_APPLY_US && out < minSpin {
        out := minSpin;
      }
      out := Limit(out, IDLE_US, TEST_MAX_US);
    }

    method ApplyTrims()
      requires motorPwm.Length == 4
      modifies motorPwm
      ensures Pwm() == AllTrimmed(mix, sp.throttle)
    {
      motorPwm[0] := ApplyTrim(0, mix.lf);
      motorPwm[1] := ApplyTrim(1, mix.rf);
      motorPwm[2] := ApplyTrim(2, mix.rr);
      motorPwm[3] := ApplyTrim(3, mix.lb);
    }

    /** The last three stages, from the torques and the throttle to the pulses. */
    method ShapeOutputs(ghost us: Quad, ghost mixed: Quad)
      requires motorPwm.Length == 4 && us == Shaped(sp.throttle, pid) && mixed == Mix(ActiveThrottle(sp.throttle), pid)
      modifies `sp, `mix, motorPwm
      ensures Pwm() == us && mix == mixed
    {
      ApplyThrottleFloor();
      UpdateMixer();
      ApplyTrims();
    }

    method UpdateControlOutputs()
      requires Valid() && (rc.valid ==> sp.throttle == rc.throttle)
      modifies `sp, `pid, `mix, motorPwm
      ensures (motorArmed && outputEnabled && rc.valid && body.ready ==>
        Pwm() == PulsesNow(rc, body, config) && mix == MixNow(rc, body, config))
      ensures !(motorArmed && outputEnabled && rc.valid && body.ready) ==> Pwm() == ALL_IDLE
    {
      if !motorArmed || !outputEnabled {
        SetAll(IDLE_US);
        return;
      }
      if !rc.valid || !body.ready {
        SetAll(IDLE_US);
        return;
      }
      UpdatePid();
      assert pid == TorqueNow(rc, body, config) && sp.throttle == rc.throttle;
      ghost var us, mixed := PulsesNow(rc, body, config), MixNow(rc, body, config);
      assert us == Shaped(sp.throttle, pid);
      ShapeOutputs(us, mixed);
    }

    method UpdateEscDelay(tick: Tick)
      modifies `esc
      ensures esc == EscAfter(hz, old(esc), tick)
    {
      if esc.startTick == 0 {
        esc := Esc(tick, false);
        return;
      }
      if SinceMs(hz, tick, esc.startTick) >= ESC_DELAY_MS {
        esc := esc.(done := true);
      }
    }

    method InitBackend()
      requires pulseNs.Length == 4
      modifies `backendReady, pulseNs
      ensures backendReady
    {
      if backendReady {
        return;
      }
      for i := 0 to 4
      {
        pulseNs[i] := IDLE_US * 1000;
      }
      backendReady := true;
    }

    method WriteChannel(channel: nat, us: int)
      requires pulseNs.Length == 4
      modifies pulseNs
      ensures forall i :: 0 <= i < 4 && (i != channel || !backendReady) ==> pulseNs[i] == old(pulseNs[i])
      ensures channel < 4 && backendReady ==> pulseNs[channel] == Programmed(motorArmed && outputEnabled, esc.done, us)
    {
      if channel >= 4 {
        return;
      }
      var pulse := us;
      if pulse < IDLE_US {
        pulse := IDLE_US;
      }
      if pulse > PWM_MAX_US {
        pulse := PWM_MAX_US;
      }
      if !motorArmed {
        pulse := IDLE_US;
      }
      if !outputEnabled {
        pulse := IDLE_US;
      }
      if !esc.done {
        pulse := IDLE_US;
      }
      if pulse > TEST_MAX_US {
        pulse := TEST_MAX_US;
      }
      if !backendReady {
        return;
      }
      pulseNs[channel] := pulse * 1000;
    }

    method ApplyOutputs(tick: Tick)
      requires Valid()
      modifies `esc, `backendReady, pulseNs
      ensures esc == EscAfter(hz, old(esc), tick)
      ensures forall i :: 0 <= i < 4 ==>
        pulseNs[i] == Programmed(motorArmed && outputEnabled, esc.done, Pwm().At(i))
    {
      UpdateEscDelay(tick);
      InitBackend();
      for i := 0 to 4
        modifies pulseNs
        invariant forall k :: 0 <= k < i ==>
          pulseNs[k] == Programmed(motorArmed && outputEnabled, esc.done, motorPwm[k])
      {
        WriteChannel(i, motorPwm[i]);
      }
    }

    method Sense(now: Tick, burst: seq<Frame>, probe: Body, region: Option<Region>) returns (failsafe: bool)
      requires Valid()
      modifies `link, `lastProbeTick, `body, `rc, `emergency, `config, `motorArmed, `outputEnabled,
               `safetyReason, `pid, `mix, motorPwm
      ensures Tuned(config)
      ensures link == LinkAfter(old(link), now, burst)
      ensures lastProbeTick == if ProbeDue(hz, now, old(lastProbeTick)) then now else old(lastProbeTick)
      ensures body == if ProbeDue(hz, now, old(lastProbeTick)) then probe else old(body)
      ensures failsafe == Lost(hz, link, now) && rc == Heard(hz, link, now)
      ensures emergency == EmergencyAfter(old(emergency), region)
      ensures config == TuningAfter(old(config), region)
      ensures rc.valid ==> !failsafe
    {
      Receive(now, burst);
      if ProbeDue(hz, now, lastProbeTick) {
        body := probe;
        lastProbeTick := now;
      }
      failsafe := ReadRc(now);
      PollRegion(region);
    }

    method Dispatch(failsafe: bool)
      requires Valid() && motorArmed == gate.latched
      requires gate.latched ==> rc.valid && body.ready && !failsafe
      requires rc.valid ==> sp.throttle == rc.throttle
      modifies `motorArmed, `outputEnabled, `safetyReason, `sp, `pid, `mix, motorPwm
      ensures motorArmed == outputEnabled == (gate.latched && !emergency.latched)
      ensures Pwm() == if outputEnabled then PulsesNow(rc, body, config) else ALL_IDLE
      ensures mix == if outputEnabled then MixNow(rc, body, config) else ALL_IDLE
      ensures safetyReason == ReasonFor(emergency.latched, failsafe, body.ready, gate.latched)
    {
      if emergency.latched {
        ForceSafe(Failsafe);
      } else if failsafe {
        ForceSafe(Failsafe);
      } else if !body.ready {
        ForceSafe(SensorNotReady);
      } else if !motorArmed {
        ForceSafe(NotArmed);
      } else {
        outputEnabled := true;
        safetyReason := Ok;
        UpdateControlOutputs();
      }
    }

    method Steer(failsafe: bool, tick: Tick)
      requires Valid() && (rc.valid ==> !failsafe)
      modifies `rc, `rcArmAllowed, `gate, `motorArmed, `outputEnabled, `safetyReason, `sp, `pid, `mix, motorPwm
      ensures rc == Refreshed(old(rc), link.frameTick == 0, Stale(hz, link, tick))
      ensures gate == GateAfter(old(gate), rc, Stale(hz, link, tick), body.ready)
      ensures motorArmed == outputEnabled == (gate.latched && !emergency.latched)
      ensures Pwm() == if outputEnabled then PulsesNow(rc, body, config) else ALL_IDLE
      ensures mix == if outputEnabled then MixNow(rc, body, config) else ALL_IDLE
      ensures safetyReason == ReasonFor(emergency.latched, failsafe, body.ready, gate.latched)
    {
      UpdateSetpoint();
      UpdateArmGate(tick);
      Dispatch(failsafe);
    }

    /** All of a poll but the last step, which only moves the delay on and programs the channels. */
    method Decide(i: Inputs)
      requires Valid()
      modifies `link, `lastProbeTick, `body, `rc, `rcArmAllowed, `gate, `emergency, `config, `sp, `pid, `mix,
               `motorArmed, `outputEnabled, `safetyReason, motorPwm
      ensures Valid() && motorArmed == outputEnabled
      ensures Now() == AfterPoll(hz, old(Now()), i).(esc := esc)
      ensures mix == if outputEnabled then MixNow(rc, body, config) else ALL_IDLE
      ensures safetyReason == ReasonFor(emergency.latched, Lost(hz, link, i.now), body.ready, gate.latched)
    {
      var failsafe := Sense(i.now, i.burst, i.probe, i.region);
      Steer(failsafe, i.freshTick);
    }

    /** One poll does to the globals what AfterPoll says, and programs the pulses that the new globals ask for. */
    method Poll(i: Inputs)
      requires Valid()
      modifies this, motorPwm, pulseNs
      ensures Valid()
      ensures Now() == AfterPoll(hz, old(Now()), i)
      ensures forall m :: 0 <= m < 4 ==> pulseNs[m] == Programmed(outputEnabled, esc.done, Pwm().At(m))
      ensures mix == if outputEnabled then MixNow(rc, body, config) else ALL_IDLE
      ensures safetyReason == ReasonFor(emergency.latched, Lost(hz, link, i.now), body.ready, gate.latched)
    {
      hide Decided, PulsesNow, Programmed, MixNow, ReasonFor;
      Decide(i);
      ApplyOutputs(i.escTick);
    }
  }
}
