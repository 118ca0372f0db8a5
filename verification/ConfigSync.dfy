/** A configuration on its way from the Linux side, through its slot, to the RT controller and receiver. */
module ConfigSync {
  import opened Numbers
  import opened ConfigBytes
  import opened SharedSlot
  import opened Protocol
  import opened MailboxTransport
  import opened RtosTransport
  import opened RtControl
  import Ibus
  import Mixer
  import FlightLoop
  import FlightRuns
  import RtNode

  const SAME_WITHIN := 0.000001

  function LinuxClamp(c: FlightConfig): FlightConfig {
    Sane(c).(throttleExpo := Clamp(c.throttleExpo, 0.0, 0.95),
             deadzoneUs := if c.deadzoneUs > 100 then 100 else c.deadzoneUs)
  }

  predicate AlmostEqual(x: real, y: real) { -SAME_WITHIN <= x - y <= SAME_WITHIN }

  /** The two configurations differ by too little to be sent; their numbers are not compared. */
  predicate Unchanged(c: FlightConfig, d: FlightConfig) {
    && AlmostEqual(c.angleP, d.angleP) && AlmostEqual(c.rateP, d.rateP) && AlmostEqual(c.rateI, d.rateI)
    && AlmostEqual(c.rateD, d.rateD) && AlmostEqual(c.throttleExpo, d.throttleExpo)
    && c.deadzoneUs == d.deadzoneUs
  }

  // ---------- The Linux side ----------

  datatype Linux = Linux(active: FlightConfig, sent: bool)

  function Numbered(l: Linux, c: FlightConfig): FlightConfig {
    c.(updateSeq := if l.sent then l.active.updateSeq + 1 else if c.updateSeq == 0 then 1 else c.updateSeq)
  }

  /** The configuration a push hands to the mailbox, if it hands over any. */
  predicate Sends(l: Linux, c: FlightConfig) { !(l.sent && Unchanged(LinuxClamp(c), l.active)) }

  function Sent(l: Linux, c: FlightConfig): FlightConfig { Numbered(l, LinuxClamp(c)) }

  function SlotOf(w: Wire, c: FlightConfig): Slot<FlightConfig> {
    Published(w.config, c.updateSeq, c)
  }

  class TelemetryNode {
    const mailbox: Mailbox
    var activeConfig: FlightConfig
    var configSent: bool

    constructor (mailbox: Mailbox)
      ensures this.mailbox == mailbox && activeConfig == DEFAULT_CONFIG && !configSent
    {
      this.mailbox := mailbox;
      activeConfig := DEFAULT_CONFIG;
      configSent := false;
    }

    /** `flushed` and `acked` are what the cache flush and the mailbox ioctl answer. */
    method SendConfig(config: FlightConfig, flushed: bool, acked: bool) returns (ok: bool)
      modifies mailbox
      ensures ok == (Formatted(old(mailbox.region)) && flushed && acked)
      ensures mailbox.configSeq == (if !Formatted(old(mailbox.region)) then old(mailbox.configSeq)
        else if config.updateSeq == 0 then old(mailbox.configSeq) + 1 else config.updateSeq)
      ensures (mailbox.region == if Formatted(old(mailbox.region))
        then old(mailbox.region).(config := SlotOf(mailbox.wire, config.(updateSeq := mailbox.configSeq)))
        else old(mailbox.region))
    {
      ok := mailbox.WriteConfigCache(config, flushed);
      if !ok {
        return;
      }
      ok := acked;
    }

    /** The slot is overwritten before the outcome is known; a failed send leaves only the slot changed. */
    method PushConfig(config: FlightConfig, flushed: bool, acked: bool) returns (pushed: bool)
      modifies this, mailbox
      ensures pushed == (Sends(old(Linux(activeConfig, configSent)), config)
        && Formatted(old(mailbox.region)) && flushed && acked)
      ensures (Linux(activeConfig, configSent)
        == if pushed then Linux(Sent(old(Linux(activeConfig, configSent)), config), true)
           else old(Linux(activeConfig, configSent)))
      ensures (mailbox.region
        == if Sends(old(Linux(activeConfig, configSent)), config) && Formatted(old(mailbox.region))
           then old(mailbox.region).(config := SlotOf(mailbox.wire, Sent(old(Linux(activeConfig, configSent)), config)))
           else old(mailbox.region))
    {
      var candidate := config;
      candidate := candidate.(angleP := Clamp(candidate.angleP, 0.5, 20.0));
      candidate := candidate.(rateP := Clamp(candidate.rateP, 0.01, 1.0));
      candidate := candidate.(rateI := Clamp(candidate.rateI, 0.0, 1.0));
      candidate := candidate.(rateD := Clamp(candidate.rateD, 0.0, 0.1));
      candidate := candidate.(throttleExpo := Clamp(candidate.throttleExpo, 0.0, 0.95));
      candidate := candidate.(deadzoneUs := if candidate.deadzoneUs > 100 then 100 else candidate.deadzoneUs);
      assert candidate == LinuxClamp(config);
      if Unchanged(candidate, activeConfig) && configSent {
        return false;
      }
      if configSent {
        candidate := candidate.(updateSeq := activeConfig.updateSeq + 1);
      } else if candidate.updateSeq == 0 {
        candidate := candidate.(updateSeq := 1);
      }
      var ok := SendConfig(candidate, flushed, acked);
      if !ok {
        return false;
      }
      activeConfig := candidate;
      configSent := true;
      return true;
    }
  }

  // ---------- Both sides ----------

  /** Linux, the region between, and of the RT side what polls change: the numbers seen, and the node. */
  datatype System = System(linux: Linux, region: Region, seen: Seen, node: RtNode.Node)

  function Start(nowUs: nat): System {
    System(Linux(DEFAULT_CONFIG, false), CLEARED_REGION, NOTHING_SEEN, RtNode.Booted(nowUs))
  }

  /** Push hands the gains to pushConfig, which always starts from the active configuration's number; Write is
      Linux touching the other slots in any way; Poll is a poll and what the node does with its command. */
  datatype Event = Push(config: FlightConfig, ok: bool) | Write(region: Region) | Poll(nowUs: nat)

  function After(w: Wire, s: System, e: Event): System {
    match e
    case Push(config, ok) =>
      var c := config.(updateSeq := s.linux.active.updateSeq);
      if !Sends(s.linux, c) then s
      else
        s.(region := s.region.(config := SlotOf(w, Sent(s.linux, c))),
           linux := if ok then Linux(Sent(s.linux, c), true) else s.linux)
    case Write(region) =>
      s.(region := region.(magic := s.region.magic, version := s.region.version, config := s.region.config))
    case Poll(nowUs) =>
      var take := PollSlots(w, s.region, s.seen);
      s.(seen := take.seen, node := RtNode.Commanded(s.node, take.command, nowUs))
  }

  predicate Happens(w: Wire, events: seq<Event>, trace: seq<System>, k: nat)
    requires k < |events| && |trace| == |events| + 1
  {
    trace[k + 1] == After(w, trace[k], events[k])
  }

  /** The states before each event of a history, and after the last. */
  ghost predicate IsHistory(w: Wire, nowUs: nat, events: seq<Event>, trace: seq<System>) {
    && |trace| == |events| + 1
    && trace[0] == Start(nowUs)
    && forall k :: 0 <= k < |events| ==> Happens(w, events, trace, k)
  }

  lemma {:induction false} HistoriesExist(w: Wire, nowUs: nat, events: seq<Event>) returns (trace: seq<System>)
    ensures IsHistory(w, nowUs, events, trace)
  {
    trace := [Start(nowUs)];
    if events != [] {
      var m := |events| - 1;
      var before := HistoriesExist(w, nowUs, events[..m]);
      trace := before + [After(w, before[m], events[m])];
      forall k: nat | k < |events| ensures Happens(w, events, trace, k) {
        if k < m {
          assert Happens(w, events[..m], before, k);
        }
      }
    }
  }

  /** What a push event hands to pushConfig. */
  function Own(s: System, e: Event): FlightConfig
    requires e.Push?
  {
    e.config.(updateSeq := s.linux.active.updateSeq)
  }

  /** The next poll finds no new emergency. */
  predicate NoStop(s: System) { !Fresh(EmergencyBytes, s.region.emergency, s.seen.emergency) }

  predicate NoFailure(events: seq<Event>, n: nat)
    requires n <= |events|
  {
    forall k :: 0 <= k < n && events[k].Push? ==> events[k].ok
  }

  predicate InBounds(c: FlightConfig) { LinuxClamp(c) == c }

  /** The controller flies with what Linux believes is active, and the receiver with its settings. */
  predicate Agree(s: System) {
    s.node.config == s.linux.active && s.node.settings == (s.linux.active.deadzoneUs, s.linux.active.throttleExpo)
  }

  /** While every send succeeds, the slot holds the active configuration under its own number, the RT side has
      seen no later number, and agrees as soon as it has seen this one. */
  predicate InStep(w: Wire, s: System) {
    && InBounds(s.linux.active) && s.linux.active.updateSeq >= 1
    && (if s.linux.sent then s.region.config == SlotOf(w, s.linux.active)
        else s.region.config.number == 0 && s.seen.config == 0 && Agree(s))
    && s.seen.config <= s.region.config.number
    && (s.seen.config == s.region.config.number ==> Agree(s))
  }

  /** The limits of the RT side leave a configuration within the Linux limits as it is. */
  lemma RtLimitsAreIdentity(c: FlightConfig)
    ensures InBounds(LinuxClamp(c)) && InBounds(DEFAULT_CONFIG)
    ensures InBounds(c) ==> Sane(c) == c && Ibus.ReceiverSettings(c) == (c.deadzoneUs, c.throttleExpo)
    ensures InBounds(c) ==> forall n: nat :: InBounds(c.(updateSeq := n))
  {
  }

  lemma PushKeepsStep(w: Wire, s: System, e: Event)
    requires InStep(w, s) && e.Push? && e.ok
    ensures InStep(w, After(w, s, e))
    ensures (var t := After(w, s, e);
      t != s ==> t.linux.sent && t.linux.active.updateSeq > s.region.config.number >= t.seen.config)
  {
    RtLimitsAreIdentity(Own(s, e));
    RtLimitsAreIdentity(LinuxClamp(Own(s, e)));
  }

  /** A poll without a new emergency takes the slot if its number is new. */
  lemma PollTakesConfig(w: Wire, s: System, nowUs: nat)
    requires NoStop(s)
    ensures (var t, news := After(w, s, Poll(nowUs)), Fresh(w.config, s.region.config, s.seen.config);
      && t.linux == s.linux && t.region == s.region
      && t.seen.config == (if news then s.region.config.number else s.seen.config)
      && t.node.config == (if news then Sane(s.region.config.payload) else s.node.config)
      && t.node.settings == (if news then Ibus.ReceiverSettings(s.region.config.payload) else s.node.settings))
  {
  }

  /** A poll that finds a new emergency leaves the configuration for the next. */
  lemma EmergencyPollWaits(w: Wire, s: System, nowUs: nat)
    requires !NoStop(s)
    ensures (var t := After(w, s, Poll(nowUs));
      && t.linux == s.linux && t.region == s.region && t.seen.config == s.seen.config
      && t.node.config == s.node.config && t.node.settings == s.node.settings)
  {
  }

  lemma PollKeepsStep(w: Wire, s: System, nowUs: nat)
    requires InStep(w, s)
    ensures InStep(w, After(w, s, Poll(nowUs)))
    ensures NoStop(s) ==> Agree(After(w, s, Poll(nowUs)))
  {
    RtLimitsAreIdentity(s.linux.active);
    if NoStop(s) {
      PollTakesConfig(w, s, nowUs);
    } else {
      EmergencyPollWaits(w, s, nowUs);
    }
  }

  lemma {:induction false} AlwaysInStep(w: Wire, nowUs: nat, events: seq<Event>, trace: seq<System>, n: nat)
    requires IsHistory(w, nowUs, events, trace) && n <= |events| && NoFailure(events, n)
    ensures InStep(w, trace[n])
  {
    RtLimitsAreIdentity(DEFAULT_CONFIG);
    if n > 0 {
      var m := n - 1;
      AlwaysInStep(w, nowUs, events, trace, m);
      assert Happens(w, events, trace, m);
      match events[m]
      case Push(_, _) => PushKeepsStep(w, trace[m], events[m]);
      case Write(_) =>
      case Poll(t) => PollKeepsStep(w, trace[m], t);
    }
  }

  /** From a fresh start, whatever was pushed, stopped and polled before: if no send failed, then after the next
      poll without a new emergency the controller's configuration is Linux's, field by field. */
  lemma ConfigAgreement(w: Wire, nowUs: nat, events: seq<Event>, trace: seq<System>, n: nat, pollUs: nat)
    requires IsHistory(w, nowUs, events, trace) && n <= |events| && NoFailure(events, n) && NoStop(trace[n])
    ensures Agree(After(w, trace[n], Poll(pollUs)))
  {
    AlwaysInStep(w, nowUs, events, trace, n);
    PollKeepsStep(w, trace[n], pollUs);
  }

  /** Every push that changes anything is sent under a new number, larger than all before, and taken. */
  lemma ChangedConfigIsTaken(w: Wire, nowUs: nat, events: seq<Event>, trace: seq<System>, n: nat, e: Event, pollUs: nat)
    requires IsHistory(w, nowUs, events, trace) && n <= |events| && NoFailure(events, n) && NoStop(trace[n])
    requires e.Push? && e.ok && Sends(trace[n].linux, Own(trace[n], e))
    ensures (var s := trace[n];
      var t := After(w, s, e);
      && t.linux.active.updateSeq > s.region.config.number
      && t.linux.active.updateSeq == (if s.linux.sent then s.linux.active.updateSeq + 1 else s.linux.active.updateSeq)
      && After(w, t, Poll(pollUs)).node.config == t.linux.active
      && After(w, t, Poll(pollUs)).node.config == LinuxClamp(e.config).(updateSeq := t.linux.active.updateSeq))
  {
    AlwaysInStep(w, nowUs, events, trace, n);
    PushKeepsStep(w, trace[n], e);
    PollKeepsStep(w, After(w, trace[n], e), pollUs);
  }

  /** What is flown is what was asked for, each gain up to a millionth: after any history without a failed send, a push
      and the next poll without a new emergency, whether the push was handed over or not. */
  lemma RequestedIsFlown(w: Wire, nowUs: nat, events: seq<Event>, trace: seq<System>, n: nat, e: Event, pollUs: nat)
    requires IsHistory(w, nowUs, events, trace) && n <= |events| && NoFailure(events, n) && NoStop(trace[n])
    requires e.Push? && e.ok
    ensures (var flown, settings, asked := After(w, After(w, trace[n], e), Poll(pollUs)).node.config,
                                           After(w, After(w, trace[n], e), Poll(pollUs)).node.settings, e.config;
      && Distance(flown.angleP, Clamp(asked.angleP, 0.5, 20.0)) <= 0.000001
      && Distance(flown.rateP, Clamp(asked.rateP, 0.01, 1.0)) <= 0.000001
      && Distance(flown.rateI, Clamp(asked.rateI, 0.0, 1.0)) <= 0.000001
      && Distance(flown.rateD, Clamp(asked.rateD, 0.0, 0.1)) <= 0.000001
      && Distance(settings.1, Clamp(asked.throttleExpo, 0.0, 0.95)) <= 0.000001
      && settings.0 == if asked.deadzoneUs > 100 then 100 else asked.deadzoneUs)
  {
    if Sends(trace[n].linux, Own(trace[n], e)) {
      ChangedConfigIsTaken(w, nowUs, events, trace, n, e, pollUs);
      AlwaysInStep(w, nowUs, events, trace, n);
      PushKeepsStep(w, trace[n], e);
      PollKeepsStep(w, After(w, trace[n], e), pollUs);
    } else {
      ConfigAgreement(w, nowUs, events, trace, n, pollUs);
    }
  }

  /** A push is handed over exactly if none has succeeded yet, or one of its gains, within its limits, is off the active
      one by more than a millionth, or the deadzone is not the same. */
  lemma HandedOverExactly(w: Wire, s: System, e: Event)
    requires e.Push?
    ensures (var asked, active := e.config, s.linux.active;
      Sends(s.linux, Own(s, e)) <==>
        || !s.linux.sent
        || Distance(Clamp(asked.angleP, 0.5, 20.0), active.angleP) > 0.000001
        || Distance(Clamp(asked.rateP, 0.01, 1.0), active.rateP) > 0.000001
        || Distance(Clamp(asked.rateI, 0.0, 1.0), active.rateI) > 0.000001
        || Distance(Clamp(asked.rateD, 0.0, 0.1), active.rateD) > 0.000001
        || Distance(Clamp(asked.throttleExpo, 0.0, 0.95), active.throttleExpo) > 0.000001
        || (if asked.deadzoneUs > 100 then 100 else asked.deadzoneUs) != active.deadzoneUs)
  {
  }

  /** What is handed over is what was asked for, within its limits: the first time under number 1, if the active
      configuration has none, and from then on under the next. Linux holds it active exactly if the send succeeds. */
  lemma PushExactly(w: Wire, s: System, e: Event)
    requires e.Push?
    ensures (var t, asked, last := After(w, s, e), e.config, s.linux.active.updateSeq;
      var number := if s.linux.sent then last + 1 else if last == 0 then 1 else last;
      var limited := asked.(angleP := Clamp(asked.angleP, 0.5, 20.0), rateP := Clamp(asked.rateP, 0.01, 1.0),
                            rateI := Clamp(asked.rateI, 0.0, 1.0), rateD := Clamp(asked.rateD, 0.0, 0.1),
                            throttleExpo := Clamp(asked.throttleExpo, 0.0, 0.95),
                            deadzoneUs := if asked.deadzoneUs > 100 then 100 else asked.deadzoneUs,
                            updateSeq := number);
      if !Sends(s.linux, Own(s, e)) then t == s
      else
        && t.region.config.payload == limited && t.region.config.number == number
        && VerifySlot(w.config, t.region.config) && t.region == s.region.(config := t.region.config)
        && t.linux == (if e.ok then Linux(limited, true) else s.linux) && t.node == s.node && t.seen == s.seen)
  {
    hide Unchanged, Clamp;
  }

  // ---------- When a send fails ----------

  /** A failed send reaches the RT side all the same, and Linux goes on with the old configuration. */
  lemma FailedSendIsTaken(w: Wire, s: System, e: Event, pollUs: nat)
    requires InStep(w, s) && e.Push? && !e.ok && Sends(s.linux, Own(s, e)) && NoStop(s)
    ensures (var t := After(w, After(w, s, e), Poll(pollUs));
      && t.linux == s.linux && t.node.config == Sent(s.linux, Own(s, e))
      && t.seen.config == t.region.config.number == t.node.config.updateSeq
      && (Agree(t) <==> Sent(s.linux, Own(s, e)) == s.linux.active))
  {
    RtLimitsAreIdentity(LinuxClamp(Own(s, e)));
    PollTakesConfig(w, After(w, s, e), pollUs);
  }

  /** After a history without a failed send, one more push that is handed over and a poll without a new emergency
      leave both sides in agreement exactly if the send succeeded, or what it handed over is what Linux holds active
      anyway, number included. The second can only be at the very first push. */
  lemma AgreementAfterPushExactly(
      w: Wire, nowUs: nat, events: seq<Event>, trace: seq<System>, n: nat, e: Event, pollUs: nat)
    requires IsHistory(w, nowUs, events, trace) && n <= |events| && NoFailure(events, n) && NoStop(trace[n])
    requires e.Push? && Sends(trace[n].linux, Own(trace[n], e))
    ensures (Agree(After(w, After(w, trace[n], e), Poll(pollUs)))
      <==> e.ok || Sent(trace[n].linux, Own(trace[n], e)) == trace[n].linux.active)
    ensures Sent(trace[n].linux, Own(trace[n], e)) == trace[n].linux.active ==> !trace[n].linux.sent
  {
    AlwaysInStep(w, nowUs, events, trace, n);
    if e.ok {
      PushKeepsStep(w, trace[n], e);
      PollKeepsStep(w, After(w, trace[n], e), pollUs);
    } else {
      FailedSendIsTaken(w, trace[n], e, pollUs);
    }
  }

  /** Sending again after that does not help: the retry goes out under the number the RT side has already seen, is
      turned down, and Linux believes it active. That includes the first push of all. */
  lemma RetryIsTurnedDown(w: Wire, s: System, failed: Event, retry: Event, firstUs: nat, secondUs: nat)
    requires InStep(w, s) && NoStop(s)
    requires failed.Push? && !failed.ok && Sends(s.linux, Own(s, failed))
    requires retry.Push? && retry.ok && Sends(s.linux, Own(s, retry))
    ensures (var taken := After(w, After(w, s, failed), Poll(firstUs));
      var end := After(w, After(w, taken, retry), Poll(secondUs));
      && end.linux == Linux(Sent(s.linux, Own(s, retry)), true)
      && end.node.config == Sent(s.linux, Own(s, failed))
      && end.linux.active.updateSeq == end.node.config.updateSeq == end.seen.config
      && (Agree(end) <==> Sent(s.linux, Own(s, retry)) == Sent(s.linux, Own(s, failed))))
  {
    FailedSendIsTaken(w, s, failed, firstUs);
    var taken := After(w, After(w, s, failed), Poll(firstUs));
    RtLimitsAreIdentity(LinuxClamp(Own(s, failed)));
    PollTakesConfig(w, After(w, s, failed), firstUs);
    PollTakesConfig(w, After(w, taken, retry), secondUs);
  }

  lemma StartHasNoStop(nowUs: nat)
    ensures NoStop(Start(nowUs))
  {
  }

  /** From power-on: the boot configuration is sent, the acknowledgement fails, the RT side takes it; the next change
      goes out under the same number 1, succeeds, and is never flown. */
  lemma BootRetryIsTurnedDown(w: Wire, nowUs: nat, c: FlightConfig)
      returns (events: seq<Event>, trace: seq<System>)
    ensures events == [Push(DEFAULT_CONFIG, false), Poll(1), Push(c, true), Poll(2)]
    ensures IsHistory(w, nowUs, events, trace)
    ensures trace[4].linux == Linux(LinuxClamp(c).(updateSeq := 1), true)
    ensures trace[4].node.config == DEFAULT_CONFIG
    ensures Agree(trace[4]) <==> LinuxClamp(c).(updateSeq := 1) == DEFAULT_CONFIG
  {
    events := [Push(DEFAULT_CONFIG, false), Poll(1), Push(c, true), Poll(2)];
    trace := HistoriesExist(w, nowUs, events);
    AlwaysInStep(w, nowUs, events, trace, 0);
    StartHasNoStop(nowUs);
    assert Happens(w, events, trace, 0) && Happens(w, events, trace, 1);
    assert Happens(w, events, trace, 2) && Happens(w, events, trace, 3);
    RtLimitsAreIdentity(DEFAULT_CONFIG);
    RetryIsTurnedDown(w, trace[0], events[0], events[2], 1, 2);
  }

  // ---------- Every history ----------

  /** Poll k takes the configuration that is then in the slot, under the given number. */
  predicate Takes(w: Wire, events: seq<Event>, trace: seq<System>, k: nat, number: nat)
    requires k < |events| && |trace| == |events| + 1
  {
    && events[k].Poll? && NoStop(trace[k])
    && Fresh(w.config, trace[k].region.config, trace[k].seen.config)
    && trace[k].region.config.number == number
  }

  predicate Orderly(w: Wire, s: System) {
    && InBounds(s.linux.active) && s.linux.active.updateSeq >= 1
    && (s.region.config.number > 0 ==>
         s.region.config == SlotOf(w, s.region.config.payload) && InBounds(s.region.config.payload))
    && s.seen.config <= s.region.config.number <= s.linux.active.updateSeq + 1
    && (if s.linux.sent then s.region.config.number >= s.linux.active.updateSeq
        else s.linux.active == DEFAULT_CONFIG && s.region.config.number <= 1)
    && (s.linux.sent && s.region.config.number == s.linux.active.updateSeq ==>
         s.region.config.payload == s.linux.active)
    && InBounds(s.node.config)
    && s.node.settings == (s.node.config.deadzoneUs, s.node.config.throttleExpo)
    && (if s.seen.config == 0 then s.node.config == DEFAULT_CONFIG else s.node.config.updateSeq == s.seen.config)
  }

  /** What holds after every history, failed sends included: numbers never go back, and what the RT side flies is what
      it took under the number it has seen. */
  ghost predicate Known(w: Wire, events: seq<Event>, trace: seq<System>, n: nat)
    requires n <= |events| && |trace| == |events| + 1
  {
    var s := trace[n];
    && Orderly(w, s)
    && (forall k, number: nat :: 0 <= k < n && Takes(w, events, trace, k, number) ==>
         number <= s.seen.config && (number == s.seen.config ==> trace[k].region.config.payload == s.node.config))
    && (s.seen.config > 0 ==> exists k :: 0 <= k < n && Takes(w, events, trace, k, s.seen.config))
  }

  lemma PushKeepsOrder(w: Wire, s: System, e: Event)
    requires Orderly(w, s) && e.Push?
    ensures Orderly(w, After(w, s, e))
  {
    RtLimitsAreIdentity(LinuxClamp(Own(s, e)));
  }

  lemma PollKeepsOrder(w: Wire, s: System, nowUs: nat)
    requires Orderly(w, s)
    ensures Orderly(w, After(w, s, Poll(nowUs)))
  {
    if NoStop(s) {
      RtLimitsAreIdentity(s.region.config.payload);
      PollTakesConfig(w, s, nowUs);
    } else {
      EmergencyPollWaits(w, s, nowUs);
    }
  }

  lemma PollKeepsKnown(w: Wire, events: seq<Event>, trace: seq<System>, m: nat, n: nat, nowUs: nat)
    requires m + 1 == n <= |events| && |trace| == |events| + 1 && Known(w, events, trace, m)
    requires events[m] == Poll(nowUs) && trace[n] == After(w, trace[m], events[m]) && Orderly(w, trace[n])
    ensures Known(w, events, trace, n)
  {
    if NoStop(trace[m]) {
      RtLimitsAreIdentity(trace[m].region.config.payload);
      PollTakesConfig(w, trace[m], nowUs);
      if Fresh(w.config, trace[m].region.config, trace[m].seen.config) {
        assert Takes(w, events, trace, m, trace[n].seen.config);
      }
    } else {
      EmergencyPollWaits(w, trace[m], nowUs);
    }
  }

  lemma OthersKeepKnown(w: Wire, events: seq<Event>, trace: seq<System>, m: nat, n: nat)
    requires m + 1 == n <= |events| && |trace| == |events| + 1 && Known(w, events, trace, m)
    requires !events[m].Poll? && trace[n].seen == trace[m].seen && trace[n].node == trace[m].node
    requires Orderly(w, trace[n])
    ensures Known(w, events, trace, n)
  {
    hide Orderly, Fresh, NoStop;
  }

  lemma OthersKeepOrder(w: Wire, s: System, e: Event)
    requires Orderly(w, s) && !e.Poll?
    ensures Orderly(w, After(w, s, e)) && After(w, s, e).seen == s.seen && After(w, s, e).node == s.node
  {
    if e.Push? {
      PushKeepsOrder(w, s, e);
    }
  }

  lemma StartIsKnown(w: Wire, nowUs: nat, events: seq<Event>, trace: seq<System>)
    requires IsHistory(w, nowUs, events, trace)
    ensures Known(w, events, trace, 0)
  {
    RtLimitsAreIdentity(DEFAULT_CONFIG);
  }

  lemma {:induction false} AlwaysKnown(w: Wire, nowUs: nat, events: seq<Event>, trace: seq<System>, n: nat)
    requires IsHistory(w, nowUs, events, trace) && n <= |events|
    ensures Known(w, events, trace, n)
  {
    if n == 0 {
      StartIsKnown(w, nowUs, events, trace);
    } else {
      var m := n - 1;
      AlwaysKnown(w, nowUs, events, trace, m);
      assert Happens(w, events, trace, m) && Orderly(w, trace[m]);
      hide Known, Orderly, After, IsHistory;
      if events[m].Poll? {
        PollKeepsOrder(w, trace[m], events[m].nowUs);
        PollKeepsKnown(w, events, trace, m, n, events[m].nowUs);
      } else {
        OthersKeepOrder(w, trace[m], events[m]);
        OthersKeepKnown(w, events, trace, m, n);
      }
    }
  }

  /** The configuration that some poll took under the number of the slot, or that of the slot itself if no poll has. */
  ghost predicate FliesActive(w: Wire, events: seq<Event>, trace: seq<System>, n: nat)
    requires n <= |events| && |trace| == |events| + 1
  {
    var s := trace[n];
    if s.region.config.number == 0 then true
    else if exists k :: 0 <= k < n && Takes(w, events, trace, k, s.region.config.number)
    then exists k :: 0 <= k < n && Takes(w, events, trace, k, s.region.config.number)
                     && trace[k].region.config.payload == s.linux.active
    else s.region.config.payload == s.linux.active
  }

  /** After every history whatever, failed sends included, the next poll without a new emergency leaves both sides in
      agreement exactly if what Linux holds active is what some poll already took under the number of the slot, or,
      where none has, what was last published. */
  lemma AgreementExactly(w: Wire, nowUs: nat, events: seq<Event>, trace: seq<System>, n: nat, pollUs: nat)
    requires IsHistory(w, nowUs, events, trace) && n <= |events| && NoStop(trace[n])
    ensures Agree(After(w, trace[n], Poll(pollUs))) <==> FliesActive(w, events, trace, n)
  {
    var s := trace[n];
    AlwaysKnown(w, nowUs, events, trace, n);
    RtLimitsAreIdentity(s.region.config.payload);
    PollTakesConfig(w, s, pollUs);
  }

  /** Once a send has succeeded, that is: what was last published is active, and no poll had already taken anything
      else under its number. */
  lemma AgreementOnceSentExactly(w: Wire, nowUs: nat, events: seq<Event>, trace: seq<System>, n: nat, pollUs: nat)
    requires IsHistory(w, nowUs, events, trace) && n <= |events| && NoStop(trace[n]) && trace[n].linux.sent
    ensures (Agree(After(w, trace[n], Poll(pollUs))) <==>
      && trace[n].region.config.payload == trace[n].linux.active
      && forall k :: 0 <= k < n && Takes(w, events, trace, k, trace[n].region.config.number)
           ==> trace[k].region.config.payload == trace[n].linux.active)
  {
    var s := trace[n];
    AgreementExactly(w, nowUs, events, trace, n, pollUs);
    AlwaysKnown(w, nowUs, events, trace, n);
    if FliesActive(w, events, trace, n)
       && exists k :: 0 <= k < n && Takes(w, events, trace, k, s.region.config.number) {
      var k :| 0 <= k < n && Takes(w, events, trace, k, s.region.config.number)
               && trace[k].region.config.payload == s.linux.active;
      AlwaysKnown(w, nowUs, events, trace, k);
    }
  }

  /** Before any send has succeeded the two conditions differ: here both sides agree although what was last published
      is not active. */
  lemma AgreeThoughOverwritten(w: Wire, nowUs: nat, c: FlightConfig) returns (events: seq<Event>, trace: seq<System>)
    requires LinuxClamp(c).(updateSeq := 1) != DEFAULT_CONFIG
    ensures events == [Push(DEFAULT_CONFIG, false), Poll(1), Push(c, false)] && IsHistory(w, nowUs, events, trace)
    ensures !trace[3].linux.sent && trace[3].region.config.payload != trace[3].linux.active
    ensures NoStop(trace[3]) && Agree(After(w, trace[3], Poll(2)))
  {
    events := [Push(DEFAULT_CONFIG, false), Poll(1), Push(c, false)];
    trace := HistoriesExist(w, nowUs, events);
    AlwaysInStep(w, nowUs, events, trace, 0);
    StartHasNoStop(nowUs);
    assert Happens(w, events, trace, 0) && Happens(w, events, trace, 1) && Happens(w, events, trace, 2);
    RtLimitsAreIdentity(DEFAULT_CONFIG);
    RtLimitsAreIdentity(LinuxClamp(c));
    FailedSendIsTaken(w, trace[0], events[0], 1);
    PollTakesConfig(w, trace[1], 1);
    PollTakesConfig(w, trace[3], 2);
  }

  // ---------- The bring-up loop as the reader ----------

  /** No divider that pushConfig can send is in the range of the bring-up loop: a new slot makes all three rate dividers
      the roll divider and leaves the angle divider alone, whatever was asked for. */
  lemma BringUpRefusesLinuxDividers(t: Mixer.Tuning, slot: Slot<FlightConfig>)
    requires InBounds(slot.payload) && FlightLoop.IsNew(t, slot)
    ensures (var u := FlightLoop.Retuned(t, slot);
      u.rollDiv == u.pitchDiv == u.yawDiv == t.rollDiv && u.angleDiv == t.angleDiv)
  {
    FlightLoop.RefusedRateKeepsDividersExactly(t, slot);
  }

  /** The two gains that the loop looks at are the floats in these bytes. */
  ghost predicate GainsFrom(c: FlightConfig, p: Payload) {
    && Mixed(p)
    && Exponent(WordAt(p, 0)) < 255 && c.angleP == FloatOf(WordAt(p, 0))
    && Exponent(WordAt(p, 4)) < 255 && c.rateP == FloatOf(WordAt(p, 4))
  }

  /** What a poll can read in the configuration slot. The loop does not look at the CRC, so that can be any mixture of
      what pushConfig has sent. */
  ghost predicate FromLinux(i: FlightLoop.Inputs) {
    FlightLoop.Readable(i.region) ==>
      || i.region.value.config == CLEARED_REGION.config || InBounds(i.region.value.config.payload)
      || exists p :: GainsFrom(i.region.value.config.payload, p)
  }

  /** Every byte in the slot, whatever the writer is at, is from some configuration or still clear. */
  lemma SlotIsMixed(steps: seq<Step>)
    requires AllSendable(ConfigSlot, Exec(Init(CONFIG_SIZE), steps))
    ensures Mixed(Exec(Init(CONFIG_SIZE), steps).slot.payload)
  {
    hide Exec, InLimits;
    var s := Exec(Init(CONFIG_SIZE), steps);
    RunInv(CONFIG_SIZE, Init(CONFIG_SIZE), steps);
    forall i | 0 <= i < CONFIG_SIZE ensures MixedByte(i, s.slot.payload[i]) {
      if k :| 0 <= k < |s.sent| && s.slot.payload[i] == s.sent[k][i] {
        assert Sendable(ConfigSlot, s.sent[k], k + 1);
        assert InLimits(s.sent[k]);
      }
    }
  }

  /** So in every run of the loop under Linux, torn reads included, the only divider that ever changes is the yaw
      divider, once, from 16 to 12, at the first configuration. */
  lemma LinuxNeverTunesBringUp(
      hz: FlightLoop.Hz, run: seq<FlightLoop.Inputs>, trace: seq<FlightLoop.Flight>, n: nat)
    requires FlightRuns.IsRun(hz, run, trace) && n <= |run|
    requires forall k :: 0 <= k < n ==> FromLinux(run[k])
    ensures trace[n].tuning.rollDiv == trace[n].tuning.pitchDiv == 12 && trace[n].tuning.angleDiv == 180
    ensures trace[n].tuning.yawDiv == 12 || trace[n].tuning.yawDiv == 16
    ensures trace[n].tuning.yawDiv == 12 <==> exists k :: 0 <= k < n && FlightRuns.ShowsConfig(run, k)
  {
    forall k | 0 <= k < n ensures FlightRuns.RefusesConfig(run[k].region) {
      assert FromLinux(run[k]);
      if p :| FlightLoop.Readable(run[k].region) && GainsFrom(run[k].region.value.config.payload, p) {
        MixedGainsAreSmall(p);
      }
    }
    FlightRuns.RefusedDividersStay(hz, run, trace, n);
  }
}
