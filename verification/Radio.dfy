/** The bring-up loop from the octets of its radio on. */
module Radio {
  import opened Numbers
  import opened Options
  import opened Ibus
  import opened FlightLoop
  import opened FlightRuns
  import Mixer
  import Protocol

  /** What one poll finds at the UART: at most 128 octets, and the tick counter at each. */
  datatype Received = Received(raw: seq<Octet>, ticks: seq<Tick>)

  type Air = a: Received | |a.ticks| == |a.raw| <= 128 witness Received([], [])

  /** The loop has its arm switch on channel 5. */
  function SticksOf(c: Channels): Mixer.Sticks { Mixer.Sticks(c[0], c[1], c[2], c[3], c[5]) }

  function FrameFor(out: Outcome, tick: Tick): seq<Frame> {
    if out.Accepted? then [Frame(SticksOf(out.channels), tick)] else []
  }

  /** The frames that a poll accepts, each with the tick at its last octet. */
  function Burst(held: Held, raw: seq<Octet>, ticks: seq<Tick>): seq<Frame>
    requires |ticks| == |raw|
  {
    if raw == [] then []
    else
      var m := |raw| - 1;
      Burst(held, raw[..m], ticks[..m]) + FrameFor(Push(BringUp, Feed(BringUp, held, raw[..m]).0, raw[m]).1, ticks[m])
  }

  lemma BurstStep(held: Held, raw: seq<Octet>, ticks: seq<Tick>, k: nat)
    requires k < |raw| == |ticks|
    ensures Burst(held, raw[..k + 1], ticks[..k + 1]) == Burst(held, raw[..k], ticks[..k])
              + FrameFor(Push(BringUp, Feed(BringUp, held, raw[..k]).0, raw[k]).1, ticks[k])
  {
    assert raw[..k + 1][..k] == raw[..k] && ticks[..k + 1][..k] == ticks[..k];
  }

  /** The last frame of a burst is the last the parser accepts, with the tick at its last octet. */
  lemma {:induction false} BurstIsFed(held: Held, raw: seq<Octet>, ticks: seq<Tick>)
    requires |ticks| == |raw|
    ensures (var burst, fed, at := Burst(held, raw, ticks), Feed(BringUp, held, raw).1, LastAt(BringUp, held, raw);
      && |burst| == |fed| && (at == 0 <==> burst == [])
      && (at > 0 ==> burst[|burst| - 1] == Frame(SticksOf(fed[|fed| - 1]), ticks[at - 1])))
    decreases |raw|
  {
    hide Push, Feed;
    if raw == [] {
      FeedNothing(BringUp, held);
    } else {
      hide LastAt, Burst;
      var m := |raw| - 1;
      BurstIsFed(held, raw[..m], ticks[..m]);
      BurstStep(held, raw, ticks, m);
      LastAtStep(BringUp, held, raw, m);
      FeedOne(BringUp, held, raw, m);
      assert raw[..m + 1] == raw && ticks[..m + 1] == ticks;
    }
  }

  lemma EncodeOne(c: Channels)
    ensures EncodeAll([c]) == Encode(c)
  {
    hide Encode;
    assert [c][1..] == [];
  }

  /** An idle loop that reads the encoding of 14 channels gets one frame from it: roll, pitch, throttle and yaw from
      channels 0 to 3, and the arm switch from channel 5. */
  lemma OneFrameIsRead(c: Channels, ticks: seq<Tick>)
    requires |ticks| == 32
    ensures Burst([], Encode(c), ticks) == [Frame(Mixer.Sticks(c[0], c[1], c[2], c[3], c[5]), ticks[31])]
  {
    hide Feed, LastAt, Burst, Encode, EncodeAll, IsFrame, ChannelsOf;
    RoundTrip(BringUp, [c]);
    EncodeOne(c);
    LastAtExactly(BringUp, [], Encode(c));
    LastAtFrame(BringUp, Encode(c));
    BurstIsFed([], Encode(c), ticks);
  }

  // ---------- Whole runs over octets ----------

  function Octets(air: seq<Air>): seq<Octet> {
    if air == [] then [] else Octets(air[..|air| - 1]) + air[|air| - 1].raw
  }

  function Ticks(air: seq<Air>): (t: seq<Tick>)
    ensures |t| == |Octets(air)|
  {
    if air == [] then [] else Ticks(air[..|air| - 1]) + air[|air| - 1].ticks
  }

  function HeldAfter(air: seq<Air>): Held { Feed(BringUp, [], Octets(air)).0 }

  predicate Receives(run: seq<Inputs>, air: seq<Air>, k: nat)
    requires k < |run| == |air|
  {
    run[k].burst == Burst(HeldAfter(air[..k]), air[k].raw, air[k].ticks)
  }

  /** Every poll of the run has its frames from these octets. */
  ghost predicate OnAir(run: seq<Inputs>, air: seq<Air>) {
    |air| == |run| && forall k :: 0 <= k < |run| ==> Receives(run, air, k)
  }

  /** Octet p of all ends in poll k. */
  predicate EndsIn(air: seq<Air>, k: nat, p: nat)
    requires k < |air|
  {
    |Octets(air[..k])| < p <= |Octets(air[..k])| + |air[k].raw|
  }

  /** The frame that ends at octet p of all, as the loop sees it. */
  function FrameAt(air: seq<Air>, p: nat): Frame
    requires 32 <= p <= |Octets(air)|
  {
    Frame(SticksOf(ChannelsOf(Octets(air)[p - 32..p])), Ticks(air)[p - 1])
  }

  lemma OneMorePoll(air: seq<Air>, k: nat)
    requires k < |air|
    ensures Octets(air[..k + 1]) == Octets(air[..k]) + air[k].raw
    ensures Ticks(air[..k + 1]) == Ticks(air[..k]) + air[k].ticks
  {
    assert air[..k + 1][..k] == air[..k];
  }

  /** What the frame at a place is does not change when more is received. */
  lemma FrameAtStays(air: seq<Air>, m: nat, p: nat)
    requires m < |air| && 32 <= p <= |Octets(air[..m])|
    ensures p <= |Octets(air[..m + 1])| && FrameAt(air[..m + 1], p) == FrameAt(air[..m], p)
    ensures Octets(air[..m + 1])[p - 32..p] == Octets(air[..m])[p - 32..p]
  {
    OneMorePoll(air, m);
    assert (Octets(air[..m]) + air[m].raw)[p - 32..p] == Octets(air[..m])[p - 32..p];
  }

  /** A burst that is not empty ends with the last frame of all octets so far. */
  lemma BurstEndsWithLast(run: seq<Inputs>, air: seq<Air>, m: nat)
    requires OnAir(run, air) && m < |run| && run[m].burst != []
    ensures (var p := LastAt(BringUp, [], Octets(air[..m + 1]));
      && EndsIn(air, m, p) && 32 <= p <= |Octets(air[..m + 1])|
      && run[m].burst[|run[m].burst| - 1] == FrameAt(air[..m + 1], p))
  {
    hide Feed, LastAt, Burst, Push, IsFrame, ChannelsOf;
    assert Receives(run, air, m);
    var before := Octets(air[..m]);
    OneMorePoll(air, m);
    BurstIsFed(HeldAfter(air[..m]), air[m].raw, air[m].ticks);
    LastAtInChunks(BringUp, before, air[m].raw);
    LastAtFrame(BringUp, before + air[m].raw);
    FeedInChunks(BringUp, [], before, air[m].raw);
  }

  lemma QuietPollAddsNothing(run: seq<Inputs>, air: seq<Air>, m: nat)
    requires OnAir(run, air) && m < |run| && run[m].burst == []
    ensures LastAt(BringUp, [], Octets(air[..m + 1])) == LastAt(BringUp, [], Octets(air[..m]))
  {
    hide Feed, LastAt, Burst;
    assert Receives(run, air, m);
    OneMorePoll(air, m);
    BurstIsFed(HeldAfter(air[..m]), air[m].raw, air[m].ticks);
    LastAtInChunks(BringUp, Octets(air[..m]), air[m].raw);
  }

  lemma {:induction false} LastHeardIsLast(run: seq<Inputs>, air: seq<Air>, n: nat, k: nat)
    requires OnAir(run, air) && n <= |run| && LastHeard(run, n, k)
    ensures (var p := LastAt(BringUp, [], Octets(air[..n]));
      && EndsIn(air, k, p) && 32 <= p <= |Octets(air[..n])|
      && run[k].burst[|run[k].burst| - 1] == FrameAt(air[..n], p))
  {
    hide LastAt, FrameAt, Octets, EndsIn, Receives;
    var m := n - 1;
    if k == m {
      BurstEndsWithLast(run, air, m);
    } else {
      assert run[m].burst == [] && LastHeard(run, m, k);
      LastHeardIsLast(run, air, m, k);
      QuietPollAddsNothing(run, air, m);
      FrameAtStays(air, m, LastAt(BringUp, [], Octets(air[..m])));
    }
  }

  /** The last valid frame in all octets so far ends with octet p, which came in poll k. */
  ghost predicate LastFrameAt(air: seq<Air>, n: nat, k: nat, p: nat)
    requires n <= |air|
  {
    && k < n && EndsIn(air, k, p) && 32 <= p <= |Octets(air[..n])|
    && p == LastAt(BringUp, [], Octets(air[..n])) && IsFrame(Octets(air[..n])[p - 32..p])
  }

  /** What the loop believes of the pilot after a poll, whenever it believes anything: the channels of the last valid
      frame in all octets so far, neither of whose clocks is more than 300 ms old. */
  lemma PilotIsHeard(hz: Hz, run: seq<Inputs>, trace: seq<Flight>, air: seq<Air>, n: nat) returns (k: nat, p: nat)
    requires IsRun(hz, run, trace) && OnAir(run, air) && 0 < n <= |run| && trace[n].rc.valid
    ensures LastFrameAt(air, n, k, p)
    ensures (var c := ChannelsOf(Octets(air[..n])[p - 32..p]);
      trace[n].rc == Mixer.Rc(true, c[0], c[1], c[2], c[3], c[5] > 1500))
    ensures Elapsed(run[n - 1].now, run[k].now) <= TicksOf(hz, 300)
    ensures Ticks(air[..n])[p - 1] != 0 && SinceMs(hz, run[n - 1].freshTick, Ticks(air[..n])[p - 1]) <= 300
  {
    hide LastAt, Octets, EndsIn, Receives, IsFrame, ChannelsOf;
    RcIsLastHeard(hz, run, trace, n);
    k :| LastHeard(run, n, k);
    p := LastAt(BringUp, [], Octets(air[..n]));
    LastHeardIsLast(run, air, n, k);
    LastAtFrame(BringUp, Octets(air[..n]));
  }

  /** In every run of the loop the motors are armed after a poll only if the last valid frame in all octets so far has
      channel 5 above 1500 and channel 2 at most 1350, and neither its poll nor its last octet is more than 300 ms
      old. */
  lemma ArmedByThePilot(hz: Hz, run: seq<Inputs>, trace: seq<Flight>, air: seq<Air>, n: nat) returns (k: nat, p: nat)
    requires IsRun(hz, run, trace) && OnAir(run, air) && 0 < n <= |run| && trace[n].gate.latched
    ensures LastFrameAt(air, n, k, p)
    ensures ChannelsOf(Octets(air[..n])[p - 32..p])[5] > 1500
    ensures ChannelsOf(Octets(air[..n])[p - 32..p])[2] <= 1350
    ensures Elapsed(run[n - 1].now, run[k].now) <= TicksOf(hz, 300)
    ensures Ticks(air[..n])[p - 1] != 0 && SinceMs(hz, run[n - 1].freshTick, Ticks(air[..n])[p - 1]) <= 300
  {
    RunsAreGated(hz, run, trace);
    assert GateMoves(hz, run, trace, n - 1);
    assert Live(trace, n - 1);
    hide LastAt, Octets, IsFrame, ChannelsOf;
    k, p := PilotIsHeard(hz, run, trace, air, n);
  }

  // ---------- The loop over the UART ----------

  /** The octet loop at the start of a poll. */
  method ReadUart(parser: BringUpParser, air: Air, ch: array<U16>) returns (burst: seq<Frame>)
    requires parser.Valid() && ch.Length == 14
    modifies parser, parser.frame, ch
    ensures parser.Valid() && parser.Held() == Feed(BringUp, old(parser.Held()), air.raw).0
    ensures burst == Burst(old(parser.Held()), air.raw, air.ticks)
  {
    burst := [];
    ghost var held := parser.Held();
    for k := 0 to |air.raw|
      invariant parser.Valid() && parser.Held() == Feed(BringUp, held, air.raw[..k]).0
      invariant burst == Burst(held, air.raw[..k], air.ticks[..k])
    {
      FeedOne(BringUp, held, air.raw, k);
      BurstStep(held, air.raw, air.ticks, k);
      var ret := parser.ParseByte(air.raw[k], ch);
      if ret == 1 {
        burst := burst + [Frame(Mixer.Sticks(ch[0], ch[1], ch[2], ch[3], ch[5]), air.ticks[k])];
      }
    }
    assert air.raw[..|air.raw|] == air.raw && air.ticks[..|air.ticks|] == air.ticks;
  }

  /** One poll with what is at the UART. */
  method PollUart(
      loop: BringUp, parser: BringUpParser, ch: array<U16>, air: Air,
      now: Tick, probe: Mixer.Body, region: Option<Protocol.Region>, freshTick: Tick, escTick: Tick)
    requires loop.Valid() && parser.Valid() && ch.Length == 14
    modifies loop, loop.motorPwm, loop.pulseNs, parser, parser.frame, ch
    ensures parser.Valid() && parser.Held() == Feed(BringUp, old(parser.Held()), air.raw).0
    ensures loop.Valid()
    ensures (var burst := Burst(old(parser.Held()), air.raw, air.ticks);
      loop.Now() == AfterPoll(loop.hz, old(loop.Now()), Inputs(now, burst, probe, region, freshTick, escTick)))
  {
    hide AfterPoll, Feed, Burst;
    var burst := ReadUart(parser, air, ch);
    loop.Poll(Inputs(now, burst, probe, region, freshTick, escTick));
  }
}
