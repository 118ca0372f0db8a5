/** The command region that Linux and the RTOS share, and the commands that travel through it. */
module Protocol {
  import opened ConfigBytes
  import opened Crc32
  import opened SharedSlot
  import opened Options

  const REGION_MAGIC := 0x4643_414D
  const REGION_VERSION := 1

  const CMD_SETPOINT := 0x30
  const CMD_ARM := 0x31
  const CMD_HEARTBEAT := 0x32
  const CMD_EMERGENCY := 0x33
  const CMD_CONFIG := 0x34

  datatype CommandSetpoint = CommandSetpoint(
    throttle: real, rollDeg: real, pitchDeg: real, yawRateDps: real, number: nat)

  datatype CommandArm = CommandArm(state: Byte)

  datatype Heartbeat = Heartbeat(monotonicUs: nat, number: nat)

  datatype CommandEmergencyStop = CommandEmergencyStop(reason: Word)

  datatype FlightConfig = FlightConfig(
    angleP: real, rateP: real, rateI: real, rateD: real, throttleExpo: real,
    deadzoneUs: nat, updateSeq: nat)

  const DEFAULT_CONFIG := FlightConfig(5.0, 0.12, 0.02, 0.003, 0.45, 15, 1)

  datatype Region = Region(
    magic: nat, version: nat,
    setpoint: Slot<CommandSetpoint>, arm: Slot<CommandArm>, heartbeat: Slot<Heartbeat>,
    emergency: Slot<CommandEmergencyStop>, config: Slot<FlightConfig>)

  const CLEARED_REGION := Region(REGION_MAGIC, REGION_VERSION,
    Slot(0, CommandSetpoint(0.0, 0.0, 0.0, 0.0, 0), 0), Slot(0, CommandArm(0), 0),
    Slot(0, Heartbeat(0, 0), 0), Slot(0, CommandEmergencyStop(0), 0),
    Slot(0, FlightConfig(0.0, 0.0, 0.0, 0.0, 0.0, 0, 0), 0))

  predicate Formatted(r: Region) {
    r.magic == REGION_MAGIC && r.version == REGION_VERSION
  }

  /** How the structs with floats and wide counters lie in memory. Nothing depends on it. */
  datatype Wire = Wire(
    setpoint: CommandSetpoint -> seq<Byte>,
    heartbeat: Heartbeat -> seq<Byte>,
    config: FlightConfig -> seq<Byte>)

  /** The arm payload: its state and three reserved bytes, always zero. */
  function ArmBytes(p: CommandArm): seq<Byte> {
    [p.state, 0, 0, 0]
  }

  function EmergencyBytes(p: CommandEmergencyStop): seq<Byte> {
    [(p.reason & 0xFF) as Byte, ((p.reason >> 8) & 0xFF) as Byte,
     ((p.reason >> 16) & 0xFF) as Byte, (p.reason >> 24) as Byte]
  }

  predicate VerifySlot<T>(bytes: T -> seq<Byte>, slot: Slot<T>) {
    slot.number != 0 && slot.crc == Crc(bytes(slot.payload))
  }

  /** The two payloads that can stop or start the motors are small enough for the slot protocol:
      in every interleaving they arrive whole. */
  lemma SafetyPayloadsArriveWhole(arm: CommandArm, stop: CommandEmergencyStop, steps: seq<Step>)
    ensures |ArmBytes(arm)| == |EmergencyBytes(stop)| == 4
    ensures AllGenuine(SharedSlot.Exec(SharedSlot.Init(|ArmBytes(arm)|), steps))
  {
    TornPublishSafe(4, steps);
  }

  /** The five slots that Linux writes. */
  datatype Kind = ArmSlot | EmergencySlot | SetpointSlot | HeartbeatSlot | ConfigSlot

  /** The size of a payload in bytes. */
  function Size(kind: Kind): nat {
    match kind
    case ArmSlot => 4
    case EmergencySlot => 4
    case SetpointSlot => 20
    case HeartbeatSlot => 12
    case ConfigSlot => 28
  }

  /** What Linux can put into a slot under a number: the three larger payloads end with that number, and a configuration
      is within its limits. */
  predicate Sendable(kind: Kind, p: Payload, number: nat) {
    && |p| == Size(kind)
    && (kind.ArmSlot? ==> p[1..] == [0, 0, 0])
    && (!kind.ArmSlot? && !kind.EmergencySlot? ==> Carries(p, number))
    && (kind.ConfigSlot? ==> InLimits(p))
  }

  ghost predicate AllSendable(kind: Kind, s: State) {
    forall k :: 0 <= k < |s.sent| ==> Sendable(kind, s.sent[k], k + 1)
  }

  /** A payload that Linux can send first: the default configuration, or nothing but the number. */
  function First(kind: Kind): (p: Payload)
    requires !kind.ArmSlot? && !kind.EmergencySlot?
    ensures |p| == Size(kind) >= 12
  {
    if kind.ConfigSlot? then DEFAULT_BYTES else Zeros(Size(kind))[Size(kind) - 4 := 1]
  }

  /** Linux can send it and, next, the payload that collides with it. For a configuration that one has the gains 7.72
      and 0.12 instead of 5 and 0.12. */
  lemma CollidingIsSendable(kind: Kind)
    requires !kind.ArmSlot? && !kind.EmergencySlot?
    ensures Sendable(kind, First(kind), 1) && Sendable(kind, Colliding(First(kind)), 2)
    ensures Carries(First(kind), 1) && Carries(Colliding(First(kind)), 2)
  {
    var p := First(kind);
    CarriesExactly(p, 1);
    CarriesExactly(Colliding(p), 2);
    hide Carries, InLimits;
    if kind.ConfigSlot? {
      CollidingBytes();
      DefaultInLimits();
      CollidingInLimits();
    }
  }

  /** Of the slots as Linux fills them, exactly the arm and the emergency slot are free of torn deliveries in
      every interleaving. */
  lemma SlotSafetyExactly(kind: Kind)
    ensures (forall steps: seq<Step> ::
        AllSendable(kind, Exec(Init(Size(kind)), steps)) ==> AllGenuine(Exec(Init(Size(kind)), steps)))
      <==> kind.ArmSlot? || kind.EmergencySlot?
  {
    hide Exec, Sendable, Colliding;
    if kind.ArmSlot? || kind.EmergencySlot? {
      forall steps: seq<Step> ensures AllGenuine(Exec(Init(Size(kind)), steps)) {
        TornPublishSafe(4, steps);
      }
    } else {
      CollidingIsSendable(kind);
      var steps := TornReadPossible(First(kind));
      var s := Exec(Init(Size(kind)), steps);
      assert AllSendable(kind, s);
      assert !Genuine(s, s.delivered[0]);
    }
  }

  lemma ReasonParts(r: Word)
    ensures (r == 0 <==> r & 0xFF == 0 && (r >> 8) & 0xFF == 0 && (r >> 16) & 0xFF == 0 && r >> 24 == 0)
  {
  }

  /** The bytes of a stop's reason are all zero exactly when the reason is. */
  lemma ReasonIsBlankExactly(p: CommandEmergencyStop)
    ensures Blank(EmergencyBytes(p)) <==> p.reason == 0
  {
    var b := EmergencyBytes(p);
    ReasonParts(p.reason);
    assert Blank(b) <==> b[0] == 0 && b[1] == 0 && b[2] == 0 && b[3] == 0;
  }

  datatype IncomingCommand = IncomingCommand(
    setpoint: Option<CommandSetpoint>, arm: Option<CommandArm>, heartbeat: Option<Heartbeat>,
    config: Option<FlightConfig>, emergencyStop: bool)

  const NO_COMMAND := IncomingCommand(None, None, None, None, false)
}
