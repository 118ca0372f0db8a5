/** The emergency slot as the bring-up loop reads it: by its number alone, without its CRC. */
module EmergencySlot {
  import opened Crc32
  import opened Options
  import opened SharedSlot
  import opened Protocol
  import FlightLoop
  import FlightRuns

  function ReasonBytes(reason: Word): Payload { EmergencyBytes(CommandEmergencyStop(reason)) }

  function Stock(reasons: set<Word>): set<Payload> {
    set r | r in reasons :: ReasonBytes(r)
  }

  /** Some byte is in use in both reasons. */
  predicate ShareByte(a: Word, b: Word) {
    || (a & 0xFF != 0 && b & 0xFF != 0) || ((a >> 8) & 0xFF != 0 && (b >> 8) & 0xFF != 0)
    || ((a >> 16) & 0xFF != 0 && (b >> 16) & 0xFF != 0) || (a >> 24 != 0 && b >> 24 != 0)
  }

  /** A new slot sets the latch of the loop exactly unless the bytes it finds are all zero. */
  lemma LatchReadsBytes(e: FlightLoop.Emergency, r: Region)
    requires Formatted(r) && r.emergency.number != e.number
    ensures FlightLoop.EmergencyAfter(e, Some(r)).latched <==> !Blank(EmergencyBytes(r.emergency.payload))
  {
    ReasonIsBlankExactly(r.emergency.payload);
  }

  lemma OverlapIsSharing(a: Word, b: Word)
    ensures Overlap(ReasonBytes(a), ReasonBytes(b)) <==> ShareByte(a, b)
  {
    var p, q := ReasonBytes(a), ReasonBytes(b);
    if ShareByte(a, b) {
      assert || (p[0] != 0 && q[0] != 0) || (p[1] != 0 && q[1] != 0)
             || (p[2] != 0 && q[2] != 0) || (p[3] != 0 && q[3] != 0);
    }
    if i :| 0 <= i < |p| && i < |q| && p[i] != 0 && q[i] != 0 {
      assert i == 0 || i == 1 || i == 2 || i == 3;
    }
  }

  /** In every run of a writer with a stock of reasons, a slot reads as a clear only if a clear was published, or is
      being published, exactly when any two reasons to stop share a byte. Otherwise a half-copied stop over a stop
      can release the latch. */
  lemma StopsReadAsStopsExactly(reasons: set<Word>)
    ensures (forall steps: seq<Step> ::
        From(Stock(reasons), Exec(Init(4), steps)) ==> BlankIsMeant(Exec(Init(4), steps)))
      <==> (forall a, b :: a in reasons && b in reasons && a != 0 && b != 0 ==> ShareByte(a, b))
  {
    var stock := Stock(reasons);
    BlankIsMeantExactly(4, stock);
    forall a, b | a in reasons && b in reasons
      ensures ReasonBytes(a) in stock && ReasonBytes(b) in stock
      ensures Overlap(ReasonBytes(a), ReasonBytes(b)) <==> ShareByte(a, b)
      ensures Blank(ReasonBytes(a)) <==> a == 0
      ensures Blank(ReasonBytes(b)) <==> b == 0
    {
      OverlapIsSharing(a, b);
      ReasonIsBlankExactly(CommandEmergencyStop(a));
      ReasonIsBlankExactly(CommandEmergencyStop(b));
    }
  }

  /** The Linux node stops with reason 1 only, so its stops are never read as clears. */
  lemma LinuxStopsReadAsStops(steps: seq<Step>)
    requires From(Stock({0, 1}), Exec(Init(4), steps))
    ensures BlankIsMeant(Exec(Init(4), steps))
  {
    assert ShareByte(1, 1);
    StopsReadAsStopsExactly({0, 1});
  }

  /** What happens otherwise, from the writer's steps to the motors: the loop has seen a first stop, a second one is
      published and a third half copied over it. No clear is ever sent, yet the next poll reads one and starts the
      motors again. */
  lemma HalfCopiedStopRestarts(a: Word, b: Word, c: Word)
      returns (later: seq<Step>, run: seq<FlightLoop.Inputs>, trace: seq<FlightLoop.Flight>)
    requires a != 0 && b != 0 && c != 0 && !ShareByte(b, c)
    ensures (var seen := Exec(Init(4), Publishing(4, ReasonBytes(a)));
      seen.slot.number == 1 && seen.slot.payload == ReasonBytes(a))
    ensures (var end := Exec(Init(4), Publishing(4, ReasonBytes(a)) + later);
      && end.sent == [ReasonBytes(a), ReasonBytes(b), ReasonBytes(c)]
      && end.slot.number == 2 && end.slot.payload == ReasonBytes(0))
    ensures FlightRuns.IsRun(1000, run, trace) && |run| == 4
    ensures run[2].region == Some(CLEARED_REGION.(emergency := Slot(1, CommandEmergencyStop(a), 0)))
    ensures run[3].region == Some(CLEARED_REGION.(emergency := Slot(2, CommandEmergencyStop(0), 0)))
    ensures trace[2].enabled && trace[3].emergency.latched && !trace[3].enabled && trace[4].enabled
  {
    hide Exec, Publishing;
    OverlapIsSharing(b, c);
    SoloPublish(4, Init(4), ReasonBytes(a));
    later := BlankMixtureLater(4, ReasonBytes(a), ReasonBytes(b), ReasonBytes(c));
    assert ReasonBytes(0) == Zeros(4);
    run, trace := FlightRuns.ClearingRestarts(a);
    FlightRuns.EmergencyLatchExactly(1000, run, trace, 3);
    assert FlightRuns.Stopped(run, 3, 2);
  }
}
