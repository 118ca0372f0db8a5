/** The RTOS side of the command region: one poll, with the doorbells that prompted it. */
module RtosTransport {
  import opened Crc32
  import opened SharedSlot
  import opened DoorbellRing
  import opened Options
  import opened Protocol
  import opened MailboxTransport

  /** The last sequence number taken from each slot. */
  datatype Seen = Seen(setpoint: nat, arm: nat, heartbeat: nat, emergency: nat, config: nat)

  const NOTHING_SEEN := Seen(0, 0, 0, 0, 0)

  /** What one poll has taken so far. */
  datatype Take = Take(seen: Seen, command: IncomingCommand)

  predicate Fresh<T>(bytes: T -> seq<Byte>, slot: Slot<T>, last: nat) {
    VerifySlot(bytes, slot) && slot.number > last
  }

  function TakeArm(r: Region, t: Take): Take {
    if Fresh(ArmBytes, r.arm, t.seen.arm)
    then Take(t.seen.(arm := r.arm.number), t.command.(arm := Some(r.arm.payload))) else t
  }

  function TakeSetpoint(w: Wire, r: Region, t: Take): Take {
    if Fresh(w.setpoint, r.setpoint, t.seen.setpoint)
    then Take(t.seen.(setpoint := r.setpoint.number), t.command.(setpoint := Some(r.setpoint.payload))) else t
  }

  function TakeHeartbeat(w: Wire, r: Region, t: Take): Take {
    if Fresh(w.heartbeat, r.heartbeat, t.seen.heartbeat)
    then Take(t.seen.(heartbeat := r.heartbeat.number), t.command.(heartbeat := Some(r.heartbeat.payload))) else t
  }

  function TakeConfig(w: Wire, r: Region, t: Take): Take {
    if Fresh(w.config, r.config, t.seen.config)
    then Take(t.seen.(config := r.config.number), t.command.(config := Some(r.config.payload))) else t
  }

  function TakeEmergency(r: Region, t: Take): Take {
    if Fresh(EmergencyBytes, r.emergency, t.seen.emergency)
    then Take(t.seen.(emergency := r.emergency.number), t.command.(emergencyStop := true)) else t
  }

  /** The four slots below the emergency slot. */
  function TakeRest(w: Wire, r: Region, t: Take): Take {
    TakeConfig(w, r, TakeHeartbeat(w, r, TakeSetpoint(w, r, TakeArm(r, t))))
  }

  /** One poll with no doorbell at all: an emergency alone, or everything else that is new. */
  function PollSlots(w: Wire, r: Region, seen: Seen): Take {
    var t := TakeEmergency(r, Take(seen, NO_COMMAND));
    if t.command.emergencyStop then t else TakeRest(w, r, t)
  }

  /** The slot a doorbell names; an unknown doorbell names none. */
  function TakeNamed(w: Wire, r: Region, t: Take, id: nat): Take {
    if id == CMD_EMERGENCY then TakeEmergency(r, t)
    else if id == CMD_ARM then TakeArm(r, t)
    else if id == CMD_SETPOINT then TakeSetpoint(w, r, t)
    else if id == CMD_HEARTBEAT then TakeHeartbeat(w, r, t)
    else if id == CMD_CONFIG then TakeConfig(w, r, t)
    else t
  }

  /** A doorbell ends the poll only if it finds a new emergency. */
  predicate Stops(r: Region, t: Take, id: nat) {
    id == CMD_EMERGENCY && Fresh(EmergencyBytes, r.emergency, t.seen.emergency)
  }

  /** What the drain loop makes of the queued doorbells, and the doorbells it leaves. */
  function Drain(w: Wire, r: Region, t: Take, ring: seq<PendingCmd>): (Take, seq<PendingCmd>)
    decreases |ring|
  {
    if ring == [] then (TakeRest(w, r, t), [])
    else if Stops(r, t, ring[0].cmdId) then (TakeNamed(w, r, t, ring[0].cmdId), ring[1..])
    else Drain(w, r, TakeNamed(w, r, t, ring[0].cmdId), ring[1..])
  }

  function PollWithDoorbells(w: Wire, r: Region, seen: Seen, ring: seq<PendingCmd>): (Take, seq<PendingCmd>) {
    var t := TakeEmergency(r, Take(seen, NO_COMMAND));
    if t.command.emergencyStop then (t, ring) else Drain(w, r, t, ring)
  }

  // ---------- The polling object ----------

  ghost function Ahead(pending: Option<PendingCmd>, rest: seq<PendingCmd>): (q: seq<PendingCmd>)
    ensures pending.Some? ==> q != [] && q[0] == pending.value && q[1..] == rest
  {
    if pending.Some? then [pending.value] + rest else rest
  }

  class Transport {
    const wire: Wire
    const ring: Ring
    var seen: Seen

    constructor (wire: Wire, ring: Ring)
      ensures this.wire == wire && this.ring == ring && seen == NOTHING_SEEN
    {
      this.wire := wire;
      this.ring := ring;
      seen := NOTHING_SEEN;
    }

    method ParseArm(r: Region, command: IncomingCommand) returns (ok: bool, out: IncomingCommand)
      modifies this
      ensures Take(seen, out) == TakeArm(r, Take(old(seen), command))
      ensures ok <==> Fresh(ArmBytes, r.arm, old(seen).arm)
    {
      if !VerifySlot(ArmBytes, r.arm) || r.arm.number <= seen.arm {
        return false, command;
      }
      seen := seen.(arm := r.arm.number);
      return true, command.(arm := Some(r.arm.payload));
    }

    method ParseSetpoint(r: Region, command: IncomingCommand) returns (ok: bool, out: IncomingCommand)
      modifies this
      ensures Take(seen, out) == TakeSetpoint(wire, r, Take(old(seen), command))
      ensures ok <==> Fresh(wire.setpoint, r.setpoint, old(seen).setpoint)
    {
      if !VerifySlot(wire.setpoint, r.setpoint) || r.setpoint.number <= seen.setpoint {
        return false, command;
      }
      seen := seen.(setpoint := r.setpoint.number);
      return true, command.(setpoint := Some(r.setpoint.payload));
    }

    method ParseHeartbeat(r: Region, command: IncomingCommand) returns (ok: bool, out: IncomingCommand)
      modifies this
      ensures Take(seen, out) == TakeHeartbeat(wire, r, Take(old(seen), command))
      ensures ok <==> Fresh(wire.heartbeat, r.heartbeat, old(seen).heartbeat)
    {
      if !VerifySlot(wire.heartbeat, r.heartbeat) || r.heartbeat.number <= seen.heartbeat {
        return false, command;
      }
      seen := seen.(heartbeat := r.heartbeat.number);
      return true, command.(heartbeat := Some(r.heartbeat.payload));
    }

    method ParseEmergency(r: Region, command: IncomingCommand) returns (ok: bool, out: IncomingCommand)
      modifies this
      ensures Take(seen, out) == TakeEmergency(r, Take(old(seen), command))
      ensures ok <==> Fresh(EmergencyBytes, r.emergency, old(seen).emergency)
    {
      if !VerifySlot(EmergencyBytes, r.emergency) || r.emergency.number <= seen.emergency {
        return false, command;
      }
      seen := seen.(emergency := r.emergency.number);
      return true, command.(emergencyStop := true);
    }

    method ParseConfig(r: Region, command: IncomingCommand) returns (ok: bool, out: IncomingCommand)
      modifies this
      ensures Take(seen, out) == TakeConfig(wire, r, Take(old(seen), command))
      ensures ok <==> Fresh(wire.config, r.config, old(seen).config)
    {
      if !VerifySlot(wire.config, r.config) || r.config.number <= seen.config {
        return false, command;
      }
      seen := seen.(config := r.config.number);
      return true, command.(config := Some(r.config.payload));
    }

    method Dispatch(r: Region, id: nat, command: IncomingCommand) returns (stop: bool, out: IncomingCommand)
      modifies this
      ensures Take(seen, out) == TakeNamed(wire, r, Take(old(seen), command), id)
      ensures stop <==> Stops(r, Take(old(seen), command), id)
    {
      stop, out := false, command;
      var ok;
      if id == CMD_EMERGENCY {
        stop, out := ParseEmergency(r, command);
      } else if id == CMD_ARM {
        ok, out := ParseArm(r, command);
      } else if id == CMD_SETPOINT {
        ok, out := ParseSetpoint(r, command);
      } else if id == CMD_HEARTBEAT {
        ok, out := ParseHeartbeat(r, command);
      } else if id == CMD_CONFIG {
        ok, out := ParseConfig(r, command);
      }
    }

    method ParseRest(r: Region, command: IncomingCommand) returns (out: IncomingCommand)
      modifies this
      ensures Take(seen, out) == TakeRest(wire, r, Take(old(seen), command))
    {
      var ok;
      ok, out := ParseArm(r, command);
      ok, out := ParseSetpoint(r, out);
      ok, out := ParseHeartbeat(r, out);
      ok, out := ParseConfig(r, out);
    }

    method Poll(r: Region) returns (command: IncomingCommand)
      requires ring.Valid()
      modifies this, ring
      ensures ring.Valid() && ring.queue == old(ring.queue)
      ensures (Take(seen, command), ring.Contents())
           == PollWithDoorbells(wire, r, old(seen), old(ring.Contents()))
    {
      command := NO_COMMAND;
      var stop;
      stop, command := ParseEmergency(r, command);
      if stop {
        return;
      }
      ghost var result := Drain(wire, r, Take(seen, command), ring.Contents());
      var pending := ring.PopCommand();
      while pending.Some?
        invariant ring.Valid() && ring.queue == old(ring.queue)
        invariant pending.None? ==> ring.Contents() == []
        invariant result == Drain(wire, r, Take(seen, command), Ahead(pending, ring.Contents()))
        decreases |ring.Contents()|, pending.Some?
      {
        stop, command := Dispatch(r, pending.value.cmdId, command);
        if stop {
          return;
        }
        pending := ring.PopCommand();
      }
      command := ParseRest(r, command);
    }
  }

  // ---------- Doorbells are only hints ----------

  /** Taking a slot early changes nothing once all four have been taken. */
  lemma EarlyTakeIsAbsorbed(w: Wire, r: Region, t: Take, id: nat)
    requires id != CMD_EMERGENCY
    ensures TakeRest(w, r, TakeNamed(w, r, t, id)) == TakeRest(w, r, t)
    ensures TakeNamed(w, r, t, id).seen.emergency == t.seen.emergency
  {
    if id == CMD_ARM {
      assert TakeArm(r, TakeArm(r, t)) == TakeArm(r, t);
    } else if id == CMD_SETPOINT {
    } else if id == CMD_HEARTBEAT {
    }
  }

  lemma {:induction false} DrainIgnoresDoorbells(w: Wire, r: Region, t: Take, ring: seq<PendingCmd>)
    requires TakeEmergency(r, t) == t && !Stops(r, t, CMD_EMERGENCY)
    ensures Drain(w, r, t, ring) == (TakeRest(w, r, t), [])
    decreases |ring|
  {
    if ring != [] {
      var id := ring[0].cmdId;
      if id == CMD_EMERGENCY {
        DrainIgnoresDoorbells(w, r, t, ring[1..]);
      } else {
        EarlyTakeIsAbsorbed(w, r, t, id);
        DrainIgnoresDoorbells(w, r, TakeNamed(w, r, t, id), ring[1..]);
      }
    }
  }

  /** Whatever is queued, lost or invented, the poll returns the same command and remembers the
      same numbers; only an emergency leaves doorbells behind, and then all of them. */
  lemma DoorbellsAreHints(w: Wire, r: Region, seen: Seen, ring: seq<PendingCmd>)
    ensures var (take, left) := PollWithDoorbells(w, r, seen, ring);
            && take == PollSlots(w, r, seen)
            && left == if take.command.emergencyStop then ring else []
  {
    var t := TakeEmergency(r, Take(seen, NO_COMMAND));
    if !t.command.emergencyStop {
      DrainIgnoresDoorbells(w, r, t, ring);
    }
  }

  /** What a slot delivers: its payload, if it verifies and its number is larger than the last taken. */
  function News<T>(bytes: T -> seq<Byte>, slot: Slot<T>, last: nat): Option<T> {
    if slot.number > last && slot.number != 0 && slot.crc == Crc(bytes(slot.payload)) then Some(slot.payload) else None
  }

  /** The number remembered after that. */
  function Latest<T>(news: Option<T>, slot: Slot<T>, last: nat): nat { if news.Some? then slot.number else last }

  lemma NewsIsFresh<T>(bytes: T -> seq<Byte>, slot: Slot<T>, last: nat)
    ensures News(bytes, slot, last) == if Fresh(bytes, slot, last) then Some(slot.payload) else None
  {
  }

  /** News replaces what the poll has taken from that slot so far. */
  function Newer<T>(news: Option<T>, taken: Option<T>): Option<T> { if news.Some? then news else taken }

  /** A doorbell takes the news of the slot it names, and leaves the other four alone. */
  lemma NamedExactly(w: Wire, r: Region, t: Take, id: nat)
    ensures (var u, c, s := TakeNamed(w, r, t, id), t.command, t.seen;
      var setpoint := if id == 0x30 then News(w.setpoint, r.setpoint, s.setpoint) else None;
      var arm := if id == 0x31 then News(ArmBytes, r.arm, s.arm) else None;
      var heartbeat := if id == 0x32 then News(w.heartbeat, r.heartbeat, s.heartbeat) else None;
      var stop := if id == 0x33 then News(EmergencyBytes, r.emergency, s.emergency) else None;
      var config := if id == 0x34 then News(w.config, r.config, s.config) else None;
      && u.command == IncomingCommand(Newer(setpoint, c.setpoint), Newer(arm, c.arm), Newer(heartbeat, c.heartbeat),
                                      Newer(config, c.config), c.emergencyStop || stop.Some?)
      && u.seen == Seen(Latest(setpoint, r.setpoint, s.setpoint), Latest(arm, r.arm, s.arm),
                        Latest(heartbeat, r.heartbeat, s.heartbeat), Latest(stop, r.emergency, s.emergency),
                        Latest(config, r.config, s.config)))
  {
    NewsIsFresh(w.setpoint, r.setpoint, t.seen.setpoint);
    NewsIsFresh(ArmBytes, r.arm, t.seen.arm);
    NewsIsFresh(w.heartbeat, r.heartbeat, t.seen.heartbeat);
    NewsIsFresh(EmergencyBytes, r.emergency, t.seen.emergency);
    NewsIsFresh(w.config, r.config, t.seen.config);
    hide Fresh, News;
  }

  /** A poll without a new emergency delivers the payload of every slot that has news, and of no other, and remembers
      the numbers of just those; one with a new emergency delivers and remembers that alone. */
  lemma PollDeliversExactly(w: Wire, r: Region, seen: Seen)
    ensures (var take, stop := PollSlots(w, r, seen), News(EmergencyBytes, r.emergency, seen.emergency);
      var arm, heartbeat := News(ArmBytes, r.arm, seen.arm), News(w.heartbeat, r.heartbeat, seen.heartbeat);
      var setpoint, config := News(w.setpoint, r.setpoint, seen.setpoint), News(w.config, r.config, seen.config);
      if stop.Some? then
        take == Take(seen.(emergency := r.emergency.number), IncomingCommand(None, None, None, None, true))
      else
        && take.command == IncomingCommand(setpoint, arm, heartbeat, config, false)
        && take.seen == Seen(Latest(setpoint, r.setpoint, seen.setpoint), Latest(arm, r.arm, seen.arm),
                             Latest(heartbeat, r.heartbeat, seen.heartbeat), seen.emergency,
                             Latest(config, r.config, seen.config)))
  {
    hide Fresh, News;
    NewsIsFresh(EmergencyBytes, r.emergency, seen.emergency);
    NewsIsFresh(ArmBytes, r.arm, seen.arm);
    NewsIsFresh(w.heartbeat, r.heartbeat, seen.heartbeat);
    NewsIsFresh(w.setpoint, r.setpoint, seen.setpoint);
    NewsIsFresh(w.config, r.config, seen.config);
  }

  lemma NewsOfPublished<T>(bytes: T -> seq<Byte>, number: nat, payload: T, last: nat)
    ensures News(bytes, Published(bytes, number, payload), last) == if number > last then Some(payload) else None
  {
  }

  /** What Linux publishes under the next number arrives with the next poll, whatever the other slots hold, unless there
      is a new emergency; and that arrives too. */
  lemma PublishedIsDelivered(w: Wire, r: Region, seen: Seen, sp: CommandSetpoint, arm: CommandArm, beat: Heartbeat,
                             stop: CommandEmergencyStop, config: FlightConfig)
    requires !Fresh(EmergencyBytes, r.emergency, seen.emergency)
    ensures (var number := seen.setpoint + 1;
      PollSlots(w, r.(setpoint := Published(w.setpoint, number, sp)), seen).command.setpoint == Some(sp))
    ensures (var number := seen.arm + 1;
      PollSlots(w, r.(arm := Published(ArmBytes, number, arm)), seen).command.arm == Some(arm))
    ensures (var number := seen.heartbeat + 1;
      PollSlots(w, r.(heartbeat := Published(w.heartbeat, number, beat)), seen).command.heartbeat == Some(beat))
    ensures (var number := seen.config + 1;
      PollSlots(w, r.(config := Published(w.config, number, config)), seen).command.config == Some(config))
    ensures (var number := seen.emergency + 1;
      PollSlots(w, r.(emergency := Published(EmergencyBytes, number, stop)), seen).command.emergencyStop)
  {
    hide PollSlots, Published, News, Fresh;
    NewsIsFresh(EmergencyBytes, r.emergency, seen.emergency);
    NewsOfPublished(w.setpoint, seen.setpoint + 1, sp, seen.setpoint);
    NewsOfPublished(ArmBytes, seen.arm + 1, arm, seen.arm);
    NewsOfPublished(w.heartbeat, seen.heartbeat + 1, beat, seen.heartbeat);
    NewsOfPublished(w.config, seen.config + 1, config, seen.config);
    NewsOfPublished(EmergencyBytes, seen.emergency + 1, stop, seen.emergency);
    PollDeliversExactly(w, r.(setpoint := Published(w.setpoint, seen.setpoint + 1, sp)), seen);
    PollDeliversExactly(w, r.(arm := Published(ArmBytes, seen.arm + 1, arm)), seen);
    PollDeliversExactly(w, r.(heartbeat := Published(w.heartbeat, seen.heartbeat + 1, beat)), seen);
    PollDeliversExactly(w, r.(config := Published(w.config, seen.config + 1, config)), seen);
    PollDeliversExactly(w, r.(emergency := Published(EmergencyBytes, seen.emergency + 1, stop)), seen);
  }

  /** An accepted emergency is delivered alone and leaves every other slot for the next poll,
      which then sees exactly what it would have seen without the emergency. */
  lemma EmergencyLeavesTheRest(w: Wire, r: Region, seen: Seen)
    requires Fresh(EmergencyBytes, r.emergency, seen.emergency)
    ensures var first := PollSlots(w, r, seen);
            var second := PollSlots(w, r, first.seen);
            && first.command == NO_COMMAND.(emergencyStop := true)
            && second.command == TakeRest(w, r, Take(seen, NO_COMMAND)).command
            && !second.command.emergencyStop
            && second.seen == TakeRest(w, r, Take(seen, NO_COMMAND)).seen.(emergency := r.emergency.number)
  {
  }

  /** Nothing is delivered twice: polling the same region again returns the empty command. */
  lemma SecondPollIsEmpty(w: Wire, r: Region, seen: Seen)
    requires !Fresh(EmergencyBytes, r.emergency, seen.emergency)
    ensures var first := PollSlots(w, r, seen);
            PollSlots(w, r, first.seen) == Take(first.seen, NO_COMMAND)
  {
  }
}
