/** The Linux side of the command region: sequence counters and slot writers. */
module MailboxTransport {
  import opened Crc32
  import opened SharedSlot
  import opened Protocol

  function Published<T>(bytes: T -> seq<Byte>, number: nat, payload: T): Slot<T> {
    Slot(number, payload, Crc(bytes(payload)))
  }

  /** Payload first, then its CRC, then the sequence number that makes it visible. */
  method PublishSlot<T>(bytes: T -> seq<Byte>, slot: Slot<T>, number: nat, payload: T) returns (out: Slot<T>)
    ensures out == Published(bytes, number, payload)
    ensures number != 0 ==> VerifySlot(bytes, out)
  {
    out := slot.(payload := payload);
    var crc := Compute(bytes(payload));
    out := out.(crc := crc);
    out := out.(number := number);
  }

  class Mailbox {
    const wire: Wire
    var region: Region
    var setpointSeq: nat
    var armSeq: nat
    var heartbeatSeq: nat
    var emergencySeq: nat
    var configSeq: nat

    constructor (wire: Wire)
      ensures this.wire == wire && region == CLEARED_REGION
      ensures setpointSeq == armSeq == heartbeatSeq == emergencySeq == configSeq == 0
    {
      this.wire := wire;
      region := CLEARED_REGION;
      setpointSeq, armSeq, heartbeatSeq, emergencySeq, configSeq := 0, 0, 0, 0, 0;
    }

    /** The only writer that repairs a region whose header is wrong; `flushed` is the cache flush. */
    method WriteSetpointCache(setpoint: CommandSetpoint, flushed: bool) returns (ok: bool)
      modifies this`region, this`setpointSeq
      ensures ok == flushed && Formatted(region)
      ensures setpointSeq == if setpoint.number == 0 then old(setpointSeq) + 1 else setpoint.number
      ensures region == (if Formatted(old(region)) then old(region) else CLEARED_REGION).(
        setpoint := Published(wire.setpoint, setpointSeq, setpoint.(number := setpointSeq)))
    {
      if !Formatted(region) {
        region := CLEARED_REGION;
      }
      setpointSeq := if setpoint.number == 0 then setpointSeq + 1 else setpoint.number;
      var slot := PublishSlot(wire.setpoint, region.setpoint, setpointSeq, setpoint.(number := setpointSeq));
      region := region.(setpoint := slot);
      return flushed;
    }

    method WriteArmCache(state: Byte, flushed: bool) returns (ok: bool)
      modifies this`region, this`armSeq
      ensures !Formatted(old(region)) ==> !ok && region == old(region) && armSeq == old(armSeq)
      ensures Formatted(old(region)) ==> (
        && ok == flushed && armSeq == old(armSeq) + 1
        && region == old(region).(arm := Published(ArmBytes, armSeq, CommandArm(state))))
    {
      if !Formatted(region) {
        return false;
      }
      armSeq := armSeq + 1;
      var slot := PublishSlot(ArmBytes, region.arm, armSeq, CommandArm(state));
      region := region.(arm := slot);
      return flushed;
    }

    method WriteHeartbeatCache(number: nat, nowUs: nat, flushed: bool) returns (ok: bool)
      modifies this`region, this`heartbeatSeq
      ensures !Formatted(old(region)) ==> !ok && region == old(region) && heartbeatSeq == old(heartbeatSeq)
      ensures Formatted(old(region)) ==> (
        && ok == flushed
        && heartbeatSeq == (if number == 0 then old(heartbeatSeq) + 1 else number)
        && region == old(region).(
             heartbeat := Published(wire.heartbeat, heartbeatSeq, Heartbeat(nowUs, heartbeatSeq))))
    {
      if !Formatted(region) {
        return false;
      }
      heartbeatSeq := if number == 0 then heartbeatSeq + 1 else number;
      var slot := PublishSlot(wire.heartbeat, region.heartbeat, heartbeatSeq, Heartbeat(nowUs, heartbeatSeq));
      region := region.(heartbeat := slot);
      return flushed;
    }

    method WriteEmergencyCache(reason: Word, flushed: bool) returns (ok: bool)
      modifies this`region, this`emergencySeq
      ensures !Formatted(old(region)) ==> !ok && region == old(region) && emergencySeq == old(emergencySeq)
      ensures Formatted(old(region)) ==> (
        && ok == flushed && emergencySeq == old(emergencySeq) + 1
        && region == old(region).(
             emergency := Published(EmergencyBytes, emergencySeq, CommandEmergencyStop(reason))))
    {
      if !Formatted(region) {
        return false;
      }
      emergencySeq := emergencySeq + 1;
      var slot := PublishSlot(EmergencyBytes, region.emergency, emergencySeq, CommandEmergencyStop(reason));
      region := region.(emergency := slot);
      return flushed;
    }

    method WriteConfigCache(config: FlightConfig, flushed: bool) returns (ok: bool)
      modifies this`region, this`configSeq
      ensures !Formatted(old(region)) ==> !ok && region == old(region) && configSeq == old(configSeq)
      ensures Formatted(old(region)) ==> (
        && ok == flushed
        && configSeq == (if config.updateSeq == 0 then old(configSeq) + 1 else config.updateSeq)
        && region == old(region).(
             config := Published(wire.config, configSeq, config.(updateSeq := configSeq))))
    {
      if !Formatted(region) {
        return false;
      }
      configSeq := if config.updateSeq == 0 then configSeq + 1 else config.updateSeq;
      var slot := PublishSlot(wire.config, region.config, configSeq, config.(updateSeq := configSeq));
      region := region.(config := slot);
      return flushed;
    }
  }
}
