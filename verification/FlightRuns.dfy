/** Whole runs of the bring-up loop: what has to have happened before a motor turns. */
module FlightRuns {
  import opened Numbers
  import opened Options
  import opened Crc32
  import opened SharedSlot
  import opened Protocol
  import opened Mixer
  import opened FlightLoop

  predicate Polls(hz: Hz, run: seq<Inputs>, trace: seq<Flight>, k: nat)
    requires k < |run| && |trace| == |run| + 1
  {
    Tuned(trace[k].tuning) && trace[k + 1] == AfterPoll(hz, trace[k], run[k])
  }

  /** The globals before each poll of a run, and after the last. */
  ghost predicate IsRun(hz: Hz, run: seq<Inputs>, trace: seq<Flight>) {
    && |trace| == |run| + 1
    && trace[0] == INITIAL
    && forall k :: 0 <= k < |run| ==> Polls(hz, run, trace, k)
  }

  lemma StaysTuned(hz: Hz, run: seq<Inputs>, trace: seq<Flight>)
    requires IsRun(hz, run, trace)
    ensures Tuned(trace[|run|].tuning)
  {
    if run != [] {
      assert Polls(hz, run, trace, |run| - 1);
    }
  }

  /** Every list of inputs has its run. */
  lemma {:induction false} RunsExist(hz: Hz, run: seq<Inputs>) returns (trace: seq<Flight>)
    ensures IsRun(hz, run, trace)
  {
    trace := [INITIAL];
    if run != [] {
      var m := |run| - 1;
      var before := RunsExist(hz, run[..m]);
      StaysTuned(hz, run[..m], before);
      trace := before + [AfterPoll(hz, before[m], run[m])];
      forall k: nat | k < |run| ensures Polls(hz, run, trace, k) {
        if k < m {
          assert Polls(hz, run[..m], before, k);
        }
      }
    }
  }

  /** And only one. */
  lemma {:induction false} RunsAgree(hz: Hz, run: seq<Inputs>, a: seq<Flight>, b: seq<Flight>, n: nat)
    requires IsRun(hz, run, a) && IsRun(hz, run, b) && n <= |run|
    ensures a[n] == b[n]
  {
    if n > 0 {
      var m := n - 1;
      RunsAgree(hz, run, a, b, m);
      assert Polls(hz, run, a, m) && Polls(hz, run, b, m);
    }
  }

  // ---------- Arming ----------

  /** Poll k found a valid link, ready sensors, a low enough throttle, and the switch up. */
  predicate Live(trace: seq<Flight>, k: nat)
    requires k + 1 < |trace|
  {
    Fit(trace[k + 1].rc, trace[k + 1].body.ready) && trace[k + 1].rc.armSwitch
  }

  predicate ShowsLow(trace: seq<Flight>, k: nat)
    requires k + 1 < |trace|
  {
    Fit(trace[k + 1].rc, trace[k + 1].body.ready) && !trace[k + 1].rc.armSwitch
  }

  /** Poll k took the link for lost by the second timeout and forgot any low switch it had seen. */
  predicate Forgets(hz: Hz, run: seq<Inputs>, trace: seq<Flight>, k: nat)
    requires k < |run| && |trace| == |run| + 1
  {
    Stale(hz, trace[k + 1].link, run[k].freshTick)
  }

  ghost predicate SawLow(hz: Hz, run: seq<Inputs>, trace: seq<Flight>, n: nat, low: nat)
    requires n <= |run| && |trace| == |run| + 1
  {
    low < n && ShowsLow(trace, low) && forall k | low < k < n :: !Forgets(hz, run, trace, k)
  }

  /** Poll low showed the switch low; nothing was forgotten up to poll arm, which found the switch newly up and
      the throttle at rest; and every poll since then was live. */
  ghost predicate ArmedSince(hz: Hz, run: seq<Inputs>, trace: seq<Flight>, n: nat, low: nat, arm: nat)
    requires n <= |run| && |trace| == |run| + 1
  {
    && low < arm < n
    && ShowsLow(trace, low)
    && (forall k | low < k <= arm :: !Forgets(hz, run, trace, k))
    && !trace[arm].rc.armSwitch
    && trace[arm + 1].rc.throttle <= ARM_MAX_US
    && forall k | arm <= k < n :: Live(trace, k)
  }

  /** What poll k does to the gate, in the words above. */
  predicate GateMoves(hz: Hz, run: seq<Inputs>, trace: seq<Flight>, k: nat)
    requires k < |run| && |trace| == |run| + 1
  {
    var g, g' := trace[k].gate, trace[k + 1].gate;
    && g'.prevSwitch == trace[k + 1].rc.armSwitch
    && g'.seenLow == ((g.seenLow && !Forgets(hz, run, trace, k)) || ShowsLow(trace, k))
    && g'.latched == (Live(trace, k) && (g.latched || (trace[k + 1].rc.throttle <= ARM_MAX_US
      && g.seenLow && !Forgets(hz, run, trace, k) && !g.prevSwitch)))
  }

  ghost predicate Gated(hz: Hz, run: seq<Inputs>, trace: seq<Flight>) {
    && |trace| == |run| + 1
    && trace[0].gate == Gate(false, false, false) && !trace[0].rc.armSwitch
    && forall k :: 0 <= k < |run| ==> GateMoves(hz, run, trace, k)
  }

  lemma RunsAreGated(hz: Hz, run: seq<Inputs>, trace: seq<Flight>)
    requires IsRun(hz, run, trace)
    ensures Gated(hz, run, trace)
  {
    forall k: nat | k < |run| ensures GateMoves(hz, run, trace, k) {
      assert Polls(hz, run, trace, k);
    }
  }

  lemma {:induction false} SeenLowExactly(hz: Hz, run: seq<Inputs>, trace: seq<Flight>, n: nat)
    requires Gated(hz, run, trace) && n <= |run|
    ensures trace[n].gate.seenLow <==> exists low :: SawLow(hz, run, trace, n, low)
  {
    if n > 0 {
      var m := n - 1;
      SeenLowExactly(hz, run, trace, m);
      assert GateMoves(hz, run, trace, m);
      if ShowsLow(trace, m) {
        assert SawLow(hz, run, trace, n, m);
      }
      if low :| SawLow(hz, run, trace, m, low) && !Forgets(hz, run, trace, m) {
        assert SawLow(hz, run, trace, n, low);
      }
      if low :| SawLow(hz, run, trace, n, low) && low != m {
        assert SawLow(hz, run, trace, m, low);
      }
    }
  }

  lemma PrevSwitch(hz: Hz, run: seq<Inputs>, trace: seq<Flight>, n: nat)
    requires Gated(hz, run, trace) && n <= |run|
    ensures trace[n].gate.prevSwitch == trace[n].rc.armSwitch
  {
    if n > 0 {
      assert GateMoves(hz, run, trace, n - 1);
    }
  }

  lemma ArmedNow(hz: Hz, run: seq<Inputs>, trace: seq<Flight>, m: nat, n: nat)
    requires Gated(hz, run, trace) && m + 1 == n <= |run| && trace[n].gate.latched
    requires trace[m].gate.latched ==> exists low, arm :: ArmedSince(hz, run, trace, m, low, arm)
    ensures exists low, arm :: ArmedSince(hz, run, trace, n, low, arm)
  {
    assert GateMoves(hz, run, trace, m);
    if trace[m].gate.latched {
      var low, arm :| ArmedSince(hz, run, trace, m, low, arm);
      assert ArmedSince(hz, run, trace, n, low, arm);
    } else {
      SeenLowExactly(hz, run, trace, m);
      var low :| SawLow(hz, run, trace, m, low);
      PrevSwitch(hz, run, trace, m);
      assert ArmedSince(hz, run, trace, n, low, m);
    }
  }

  lemma StillArmed(hz: Hz, run: seq<Inputs>, trace: seq<Flight>, m: nat, n: nat, low: nat, arm: nat)
    requires Gated(hz, run, trace) && m + 1 == n <= |run| && ArmedSince(hz, run, trace, n, low, arm)
    requires (exists low, arm :: ArmedSince(hz, run, trace, m, low, arm)) ==> trace[m].gate.latched
    ensures trace[n].gate.latched
  {
    assert GateMoves(hz, run, trace, m);
    assert Live(trace, m);
    if arm < m {
      assert ArmedSince(hz, run, trace, m, low, arm);
    } else {
      assert SawLow(hz, run, trace, m, low);
      SeenLowExactly(hz, run, trace, m);
      PrevSwitch(hz, run, trace, m);
    }
  }

  /** The motors are armed after n polls exactly when there was such a low and such an arming poll. */
  lemma {:induction false} ArmHistory(hz: Hz, run: seq<Inputs>, trace: seq<Flight>, n: nat)
    requires Gated(hz, run, trace) && n <= |run|
    ensures trace[n].gate.latched <==> exists low, arm :: ArmedSince(hz, run, trace, n, low, arm)
  {
    if n > 0 {
      var m := n - 1;
      ArmHistory(hz, run, trace, m);
      if trace[n].gate.latched {
        ArmedNow(hz, run, trace, m, n);
      }
      if low, arm :| ArmedSince(hz, run, trace, n, low, arm) {
        StillArmed(hz, run, trace, m, n, low, arm);
      }
    }
  }

  lemma WhileArmed(hz: Hz, run: seq<Inputs>, trace: seq<Flight>, n: nat, low: nat, arm: nat, k: nat)
    requires n <= |run| && |trace| == |run| + 1 && ArmedSince(hz, run, trace, n, low, arm) && k < n
    ensures arm <= k || k == low ==> trace[k + 1].rc.valid
    ensures low < k <= arm ==> !Forgets(hz, run, trace, k)
  {
    if arm <= k {
      assert Live(trace, k);
    }
  }

  lemma ForgettingIsLoss(hz: Hz, run: seq<Inputs>, trace: seq<Flight>, k: nat)
    requires IsRun(hz, run, trace) && k < |run|
    ensures Forgets(hz, run, trace, k) ==> !trace[k + 1].rc.valid
  {
    assert Polls(hz, run, trace, k);
  }

  /** Once a poll has forgotten, the pilot must show a low switch again before the motors are armed. */
  lemma LowNeededAfterForgetting(hz: Hz, run: seq<Inputs>, trace: seq<Flight>, k: nat, n: nat)
    requires IsRun(hz, run, trace) && k < n <= |run|
    requires Forgets(hz, run, trace, k) && trace[n].gate.latched
    ensures exists low: nat :: k < low < n && ShowsLow(trace, low)
  {
    RunsAreGated(hz, run, trace);
    ArmHistory(hz, run, trace, n);
    var low: nat, arm: nat :| ArmedSince(hz, run, trace, n, low, arm);
    ForgettingIsLoss(hz, run, trace, k);
    WhileArmed(hz, run, trace, n, low, arm, k);
    assert ShowsLow(trace, low);
  }

  lemma AgeZero(hz: Hz, tick: Tick)
    ensures Elapsed(tick, tick) == 0 && SinceMs(hz, tick, tick) == 0 && TicksOf(hz, LINK_TIMEOUT_MS) >= 0
  {
  }

  /** The tick counter does not wrap around before the sensors are probed again. */
  predicate CanProbe(hz: Hz) { TicksOf(hz, PROBE_PERIOD_MS) < 0x1_0000_0000 }

  /** From any state whatever, whether the very next poll can leave the motors armed depends on the latch, the
      remembered low and the last switch, and on whether the sensors are ready or can be probed. */
  lemma NextPollCanArmExactly(hz: Hz, s: Flight)
    requires Tuned(s.tuning)
    ensures ((exists i: Inputs :: AfterPoll(hz, s, i).gate.latched) <==>
      && (s.gate.latched || (s.gate.seenLow && !s.gate.prevSwitch)) && (s.body.ready || CanProbe(hz)))
  {
    if (s.gate.latched || (s.gate.seenLow && !s.gate.prevSwitch)) && (s.body.ready || CanProbe(hz)) {
      var now := (s.probeTick + 0xFFFF_FFFF) % 0x1_0000_0000;
      var probe := Body(true, true, 0, 0, 0, 0, 0);
      var i := Inputs(now, [Frame(Sticks(1500, 1500, 1000, 1500, 2000), 1)], probe, None, 1, 1);
      assert Elapsed(now, s.probeTick) == 0xFFFF_FFFF;
      AgeZero(hz, now);
      AgeZero(hz, 1);
      assert AfterPoll(hz, s, i).gate.latched;
    }
  }

  lemma {:induction false} ReadyWasProbed(hz: Hz, run: seq<Inputs>, trace: seq<Flight>, n: nat)
    requires IsRun(hz, run, trace) && n <= |run|
    ensures trace[n].body.ready ==> CanProbe(hz)
  {
    if n > 0 {
      ReadyWasProbed(hz, run, trace, n - 1);
      assert Polls(hz, run, trace, n - 1);
    }
  }

  /** A lost poll counts the switch as low, unless it has forgotten everything anyway. */
  lemma LossIsNotHigh(hz: Hz, run: seq<Inputs>, trace: seq<Flight>, k: nat)
    requires IsRun(hz, run, trace) && k < |run| && !trace[k + 1].rc.valid
    ensures trace[k + 1].gate.seenLow ==> !trace[k + 1].gate.prevSwitch
    ensures !trace[k + 1].gate.latched
  {
    assert Polls(hz, run, trace, k);
  }

  /** In every run, whether the poll after a loss can arm is decided by the low switch that the run remembers: exactly
      if some poll showed the switch low and neither the lost poll nor any before it has forgotten that. */
  lemma ReconnectArmsExactly(hz: Hz, run: seq<Inputs>, trace: seq<Flight>, n: nat)
    requires IsRun(hz, run, trace) && 0 < n <= |run| && !trace[n].rc.valid
    ensures Tuned(trace[n].tuning)
    ensures ((exists i: Inputs :: AfterPoll(hz, trace[n], i).gate.latched)
      <==> exists low :: SawLow(hz, run, trace, n, low))
  {
    var k := n - 1;
    assert Polls(hz, run, trace, k);
    RunsAreGated(hz, run, trace);
    assert GateMoves(hz, run, trace, k);
    SeenLowExactly(hz, run, trace, n);
    NextPollCanArmExactly(hz, trace[n]);
    LossIsNotHigh(hz, run, trace, k);
    if low: nat :| SawLow(hz, run, trace, n, low) {
      ReadyWasProbed(hz, run, trace, low + 1);
    }
  }

  /** The run goes on with more polls, none of which shows the switch low, and ends armed. */
  ghost predicate ArmsWithoutNewLow(hz: Hz, run: seq<Inputs>, more: seq<Inputs>, after: seq<Flight>) {
    && IsRun(hz, run + more, after)
    && after[|run| + |more|].gate.latched
    && forall j | |run| <= j < |run| + |more| :: !ShowsLow(after, j)
  }

  lemma OnePollMore(hz: Hz, run: seq<Inputs>, trace: seq<Flight>, i: Inputs)
    requires IsRun(hz, run, trace) && Tuned(trace[|run|].tuning) && AfterPoll(hz, trace[|run|], i).gate.latched
    ensures exists more, after :: ArmsWithoutNewLow(hz, run, more, after)
  {
    var n, next := |run|, AfterPoll(hz, trace[|run|], i);
    var after := trace + [next];
    forall k: nat | k < n + 1 ensures Polls(hz, run + [i], after, k) {
      if k < n {
        assert Polls(hz, run, trace, k);
      }
    }
    RunsAreGated(hz, run + [i], after);
    assert GateMoves(hz, run + [i], after, n);
    assert ArmsWithoutNewLow(hz, run, [i], after);
  }

  lemma StartsAlike(hz: Hz, run: seq<Inputs>, trace: seq<Flight>, more: seq<Inputs>, after: seq<Flight>)
    requires IsRun(hz, run, trace) && IsRun(hz, run + more, after)
    ensures forall k :: 0 <= k <= |run| ==> after[k] == trace[k]
  {
    var start := after[..|run| + 1];
    forall k: nat | k < |run| ensures Polls(hz, run, start, k) {
      assert Polls(hz, run + more, after, k);
    }
    forall k: nat | k <= |run| ensures after[k] == trace[k] {
      RunsAgree(hz, run, start, trace, k);
    }
  }

  lemma OldLowRemembered(hz: Hz, run: seq<Inputs>, trace: seq<Flight>, more: seq<Inputs>, after: seq<Flight>)
    requires IsRun(hz, run, trace) && run != [] && !trace[|run|].rc.valid
    requires ArmsWithoutNewLow(hz, run, more, after)
    ensures exists low :: SawLow(hz, run, trace, |run|, low)
  {
    var n, whole := |run|, run + more;
    StartsAlike(hz, run, trace, more, after);
    RunsAreGated(hz, whole, after);
    ArmHistory(hz, whole, after, |whole|);
    var low: nat, arm: nat :| ArmedSince(hz, whole, after, |whole|, low, arm);
    WhileArmed(hz, whole, after, |whole|, low, arm, n - 1);
    assert low < n - 1 < arm;
    forall j: nat | low < j < n ensures !Forgets(hz, run, trace, j) {
      assert !Forgets(hz, whole, after, j);
    }
    assert SawLow(hz, run, trace, n, low);
  }

  /** And so it is for all later polls: after a loss a run can go on to arm the motors, without the switch ever being
      shown low again, exactly if a low is remembered across the loss. */
  lemma ReconnectWithoutNewLowExactly(hz: Hz, run: seq<Inputs>, trace: seq<Flight>)
    requires IsRun(hz, run, trace) && run != [] && !trace[|run|].rc.valid
    ensures ((exists more, after :: ArmsWithoutNewLow(hz, run, more, after))
      <==> exists low :: SawLow(hz, run, trace, |run|, low))
  {
    var n := |run|;
    ReconnectArmsExactly(hz, run, trace, n);
    if exists low :: SawLow(hz, run, trace, n, low) {
      var i: Inputs :| AfterPoll(hz, trace[n], i).gate.latched;
      OnePollMore(hz, run, trace, i);
    }
    if more, after :| ArmsWithoutNewLow(hz, run, more, after) {
      OldLowRemembered(hz, run, trace, more, after);
    }
  }

  /** The two timeouts can disagree. Here the link is lost at the second poll, by the clock of the poll that
      received the last frame, but not by the clock of the frame itself; the low switch is not forgotten,
      and when the link is back the motors are armed although the switch was never shown low again. */
  lemma ReconnectWithoutLow() returns (run: seq<Inputs>, trace: seq<Flight>)
    ensures IsRun(1000, run, trace) && |run| == 3
    ensures Lost(1000, trace[2].link, run[1].now) && !trace[2].rc.valid
    ensures !ShowsLow(trace, 1) && !ShowsLow(trace, 2)
    ensures trace[3].enabled
  {
    var still := Body(true, true, 0, 0, 0, 0, 0);
    var low, high := Sticks(1500, 1500, 1000, 1500, 1000), Sticks(1500, 1500, 1000, 1500, 2000);
    run := [Inputs(1000, [Frame(low, 1010)], still, None, 1011, 1012),
            Inputs(1301, [], still, None, 1305, 1306),
            Inputs(1320, [Frame(high, 1321)], still, None, 1322, 1323)];
    trace := RunsExist(1000, run);
    assert Polls(1000, run, trace, 0) && Polls(1000, run, trace, 1) && Polls(1000, run, trace, 2);
    assert trace[1].gate == Gate(true, false, false);
    assert trace[2].gate == Gate(true, false, false);
  }

  // ---------- What the pilot has to be showing ----------

  /** Poll k is the last that received any frame. */
  predicate LastHeard(run: seq<Inputs>, n: nat, k: nat)
    requires n <= |run|
  {
    k < n && run[k].burst != [] && forall j | k < j < n :: run[j].burst == []
  }

  /** The link is what the last frame received has made it. */
  lemma {:induction false} LinkIsLastHeard(hz: Hz, run: seq<Inputs>, trace: seq<Flight>, n: nat)
    requires IsRun(hz, run, trace) && n <= |run|
    ensures trace[n].link.frames == 0 || exists k :: LastHeard(run, n, k)
    ensures trace[n].link.frames == 0 ==> trace[n].link.frameTick == 0
    ensures (forall k: nat :: LastHeard(run, n, k) ==>
      var last := run[k].burst[|run[k].burst| - 1];
      && trace[n].link.frames > 0 && trace[n].link.pollTick == run[k].now
      && trace[n].link.frameTick == last.tick && trace[n].link.sticks == last.sticks)
  {
    if n > 0 {
      var m := n - 1;
      LinkIsLastHeard(hz, run, trace, m);
      assert Polls(hz, run, trace, m);
      if run[m].burst != [] {
        assert LastHeard(run, n, m);
      } else if k: nat :| LastHeard(run, m, k) {
        assert LastHeard(run, n, k);
      }
      forall k: nat | LastHeard(run, n, k) ensures k == m || LastHeard(run, m, k) {
        assert k < m ==> run[m].burst == [];
      }
    }
  }

  /** Neither clock finds the frame too old, and the second has a reading for it. */
  predicate InTime(hz: Hz, frame: Frame, received: Tick, last: Inputs) {
    && frame.tick != 0
    && Elapsed(last.now, received) <= TicksOf(hz, LINK_TIMEOUT_MS)
    && SinceMs(hz, last.freshTick, frame.tick) <= LINK_TIMEOUT_MS
  }

  /** In every run, what the loop believes of the pilot after a poll is what his last frame shows, as long as that is
      in time, and nothing otherwise. */
  lemma RcIsLastHeard(hz: Hz, run: seq<Inputs>, trace: seq<Flight>, n: nat)
    requires IsRun(hz, run, trace) && 0 < n <= |run|
    ensures trace[n].rc.valid ==> exists k :: LastHeard(run, n, k)
    ensures (forall k: nat :: LastHeard(run, n, k) ==>
      var last := run[k].burst[|run[k].burst| - 1];
      && (trace[n].rc.valid <==> InTime(hz, last, run[k].now, run[n - 1]))
      && (trace[n].rc.valid ==> trace[n].rc == Rc(true, last.sticks.roll, last.sticks.pitch, last.sticks.throttle,
                                                  last.sticks.yaw, last.sticks.arm > 1500)))
  {
    LinkIsLastHeard(hz, run, trace, n);
    assert Polls(hz, run, trace, n - 1);
  }

  /** And if it is not in time: what is older by the first clock counts as a centred radio with the throttle at rest,
      what is older by the second keeps its sticks without throttle and switch, and a frame that came at tick 0 keeps
      all. */
  lemma UnheardExactly(hz: Hz, run: seq<Inputs>, trace: seq<Flight>, n: nat)
    requires IsRun(hz, run, trace) && 0 < n <= |run|
    ensures (!exists k: nat :: LastHeard(run, n, k)) ==> trace[n].rc == Rc(false, 1500, 1500, 1000, 1500, false)
    ensures (forall k: nat :: LastHeard(run, n, k) ==>
      var last, c := run[k].burst[|run[k].burst| - 1], run[k].burst[|run[k].burst| - 1].sticks;
      !InTime(hz, last, run[k].now, run[n - 1]) ==>
        trace[n].rc == if Elapsed(run[n - 1].now, run[k].now) > TicksOf(hz, 300)
          then Rc(false, 1500, 1500, 1000, 1500, false)
          else Rc(false, c.roll, c.pitch, if last.tick == 0 then c.throttle else 1000, c.yaw,
                  last.tick == 0 && c.arm > 1500))
  {
    LinkIsLastHeard(hz, run, trace, n);
    assert Polls(hz, run, trace, n - 1);
  }

  /** The frame holds the switch up and the throttle low enough, in time. */
  predicate HoldsArmed(hz: Hz, frame: Frame, received: Tick, last: Inputs) {
    frame.sticks.arm > 1500 && frame.sticks.throttle <= 1350 && InTime(hz, frame, received, last)
  }

  /** In every run the motors are armed after a poll only if the pilot's last frame holds them so. */
  lemma ArmedByTheLastFrame(hz: Hz, run: seq<Inputs>, trace: seq<Flight>, n: nat) returns (k: nat)
    requires IsRun(hz, run, trace) && 0 < n <= |run| && trace[n].gate.latched
    ensures LastHeard(run, n, k)
    ensures HoldsArmed(hz, run[k].burst[|run[k].burst| - 1], run[k].now, run[n - 1])
  {
    RcIsLastHeard(hz, run, trace, n);
    RunsAreGated(hz, run, trace);
    assert GateMoves(hz, run, trace, n - 1);
    assert Live(trace, n - 1);
    k :| LastHeard(run, n, k);
  }

  /** The frame holds the switch down and the throttle low enough, in time. */
  predicate HoldsLow(hz: Hz, frame: Frame, received: Tick, last: Inputs) {
    frame.sticks.arm <= 1500 && frame.sticks.throttle <= 1350 && InTime(hz, frame, received, last)
  }

  /** The second clock does not find the frame too old. */
  predicate Remembered(hz: Hz, frame: Frame, last: Inputs) {
    frame.tick != 0 && SinceMs(hz, last.freshTick, frame.tick) <= 300
  }

  /** What poll n - 1 shows of the switch is what the last frame holds, if the sensors are ready; and it forgets what it
      was shown unless there is a last frame that is not older by the second clock. */
  lemma ShownExactly(hz: Hz, run: seq<Inputs>, trace: seq<Flight>, n: nat)
    requires IsRun(hz, run, trace) && 0 < n <= |run|
    ensures Live(trace, n - 1) <==> trace[n].body.ready && (exists k: nat ::
      LastHeard(run, n, k) && HoldsArmed(hz, run[k].burst[|run[k].burst| - 1], run[k].now, run[n - 1]))
    ensures ShowsLow(trace, n - 1) <==> trace[n].body.ready && (exists k: nat ::
      LastHeard(run, n, k) && HoldsLow(hz, run[k].burst[|run[k].burst| - 1], run[k].now, run[n - 1]))
    ensures !Forgets(hz, run, trace, n - 1) <==> (exists k: nat ::
      LastHeard(run, n, k) && Remembered(hz, run[k].burst[|run[k].burst| - 1], run[n - 1]))
  {
    RcIsLastHeard(hz, run, trace, n);
    LinkIsLastHeard(hz, run, trace, n);
  }

  // ---------- The emergency latch ----------

  /** The number in the region when it was last readable. */
  function LastNumber(run: seq<Inputs>, n: nat): nat
    requires n <= |run|
  {
    if n == 0 then 0
    else if Readable(run[n - 1].region) then run[n - 1].region.value.emergency.number
    else LastNumber(run, n - 1)
  }

  /** Poll k finds a new emergency slot, asking to stop, or to go on. */
  predicate News(run: seq<Inputs>, k: nat, stop: bool)
    requires k < |run|
  {
    && Readable(run[k].region)
    && run[k].region.value.emergency.number != LastNumber(run, k)
    && (run[k].region.value.emergency.payload.reason != 0) == stop
  }

  predicate Stopped(run: seq<Inputs>, n: nat, k: nat)
    requires n <= |run|
  {
    k < n && News(run, k, true) && forall j | k < j < n :: !News(run, j, false)
  }

  lemma EmergencyStep(hz: Hz, run: seq<Inputs>, trace: seq<Flight>, m: nat)
    requires IsRun(hz, run, trace) && m < |run| && trace[m].emergency.number == LastNumber(run, m)
    ensures trace[m + 1].emergency.number == LastNumber(run, m + 1)
    ensures (trace[m + 1].emergency.latched <==>
      News(run, m, true) || (trace[m].emergency.latched && !News(run, m, false)))
  {
    assert Polls(hz, run, trace, m);
  }

  /** The latch holds from a new slot with a reason to the next new slot without one, whatever becomes of the
      region in between. */
  lemma {:induction false} EmergencyLatchExactly(hz: Hz, run: seq<Inputs>, trace: seq<Flight>, n: nat)
    requires IsRun(hz, run, trace) && n <= |run|
    ensures trace[n].emergency.number == LastNumber(run, n)
    ensures trace[n].emergency.latched <==> exists k :: Stopped(run, n, k)
  {
    if n > 0 {
      var m := n - 1;
      EmergencyLatchExactly(hz, run, trace, m);
      EmergencyStep(hz, run, trace, m);
      if News(run, m, true) {
        assert Stopped(run, n, m);
      }
      if k :| Stopped(run, m, k) && !News(run, m, false) {
        assert Stopped(run, n, k);
      }
      if k :| Stopped(run, n, k) && k != m {
        assert Stopped(run, m, k);
        assert !News(run, m, false);
      }
    }
  }

  predicate SameOutsideRegion(i: Inputs, j: Inputs) {
    j == i.(region := j.region)
  }

  predicate SameButEmergency(s: Flight, t: Flight) {
    && s.link == t.link && s.probeTick == t.probeTick && s.body == t.body
    && s.rc == t.rc && s.gate == t.gate && s.esc == t.esc
  }

  /** The arm gate does not look at the region: two runs that differ only there pass through the same gates. */
  lemma {:induction false} GateIgnoresRegion(
      hz: Hz, run: seq<Inputs>, run': seq<Inputs>, trace: seq<Flight>, trace': seq<Flight>, n: nat)
    requires IsRun(hz, run, trace) && IsRun(hz, run', trace') && n <= |run| == |run'|
    requires forall k | 0 <= k < |run| :: SameOutsideRegion(run[k], run'[k])
    ensures SameButEmergency(trace[n], trace'[n])
  {
    if n > 0 {
      var m := n - 1;
      GateIgnoresRegion(hz, run, run', trace, trace', m);
      assert Polls(hz, run, trace, m) && Polls(hz, run', trace', m);
      assert SameOutsideRegion(run[m], run'[m]);
    }
  }

  /** So a stop does not disarm the gate. When the slot that clears it arrives and the gate is still live, the
      motors are on again within that poll, without any touch of the switch; otherwise they stay off. */
  lemma ClearingRestartsExactly(hz: Hz, run: seq<Inputs>, trace: seq<Flight>, k: nat)
    requires IsRun(hz, run, trace) && k < |run| && News(run, k, false)
    ensures trace[k].gate.latched ==> (trace[k + 1].enabled <==> Live(trace, k))
  {
    assert Polls(hz, run, trace, k);
    RunsAreGated(hz, run, trace);
    assert GateMoves(hz, run, trace, k);
    EmergencyLatchExactly(hz, run, trace, k);
    EmergencyStep(hz, run, trace, k);
  }

  const AT_REST := Body(true, true, 0, 0, 0, 0, 0)

  /** A poll at the given tick, on a level frame, with centred sticks, throttle at rest and the given arm channel. */
  function StickPoll(tick: Tick, arm: U16, region: Option<Region>): Inputs {
    Inputs(tick, [Frame(Sticks(1500, 1500, 1000, 1500, arm), tick)], AT_REST, region, tick, tick)
  }

  lemma LowStarts(run: seq<Inputs>, trace: seq<Flight>)
    requires IsRun(1000, run, trace) && run != [] && run[0] == StickPoll(1000, 1000, None)
    ensures trace[1].gate == Gate(true, false, false) && trace[1].body == AT_REST
    ensures trace[1].emergency == Emergency(false, 0)
  {
    assert Polls(1000, run, trace, 0);
  }

  lemma HighStep(run: seq<Inputs>, trace: seq<Flight>, k: nat, tick: Tick, region: Option<Region>)
    requires IsRun(1000, run, trace) && k < |run| && run[k] == StickPoll(tick, 2000, region) && tick != 0
    requires trace[k].body == AT_REST && trace[k].gate.seenLow && (trace[k].gate.latched || !trace[k].gate.prevSwitch)
    ensures trace[k + 1].gate == Gate(true, true, true) && trace[k + 1].body == AT_REST && Live(trace, k)
    ensures trace[k + 1].emergency == EmergencyAfter(trace[k].emergency, region)
    ensures trace[k + 1].enabled == !trace[k + 1].emergency.latched
  {
    assert Polls(1000, run, trace, k);
    AgeZero(1000, tick);
  }

  /** A run in which that happens: low, high, a stop for any reason, and its clearing, the switch high all along. */
  lemma ClearingRestarts(reason: Word) returns (run: seq<Inputs>, trace: seq<Flight>)
    requires reason != 0
    ensures IsRun(1000, run, trace) && |run| == 4
    ensures run[2].region == Some(CLEARED_REGION.(emergency := Slot(1, CommandEmergencyStop(reason), 0)))
    ensures run[3].region == Some(CLEARED_REGION.(emergency := Slot(2, CommandEmergencyStop(0), 0)))
    ensures News(run, 2, true) && News(run, 3, false)
    ensures trace[2].enabled && !trace[3].enabled && trace[4].enabled
    ensures Live(trace, 1) && Live(trace, 2) && Live(trace, 3)
  {
    var stop := CLEARED_REGION.(emergency := Slot(1, CommandEmergencyStop(reason), 0));
    var clear := CLEARED_REGION.(emergency := Slot(2, CommandEmergencyStop(0), 0));
    run := [StickPoll(1000, 1000, None), StickPoll(1010, 2000, None),
            StickPoll(1020, 2000, Some(stop)), StickPoll(1030, 2000, Some(clear))];
    trace := RunsExist(1000, run);
    LowStarts(run, trace);
    HighStep(run, trace, 1, 1010, None);
    HighStep(run, trace, 2, 1020, Some(stop));
    HighStep(run, trace, 3, 1030, Some(clear));
    assert trace[2].emergency == Emergency(false, 0);
    assert trace[3].emergency == Emergency(true, 1);
    assert trace[4].emergency == Emergency(false, 2);
    assert LastNumber(run, 1) == 0;
    assert LastNumber(run, 2) == 0;
    assert LastNumber(run, 3) == 1;
  }

  // ---------- The pulses ----------

  /** The first poll with a nonzero clock starts the delay of the motor controllers, a later one ends it. */
  predicate DelayOver(hz: Hz, run: seq<Inputs>, n: nat, first: nat, last: nat)
    requires n <= |run|
  {
    && first < last < n
    && run[first].escTick != 0 && (forall j | 0 <= j < first :: run[j].escTick == 0)
    && SinceMs(hz, run[last].escTick, run[first].escTick) >= ESC_DELAY_MS
  }

  predicate Starts(run: seq<Inputs>, first: nat)
    requires first < |run|
  {
    run[first].escTick != 0 && forall j | 0 <= j < first :: run[j].escTick == 0
  }

  lemma {:induction false} DelayExactly(hz: Hz, run: seq<Inputs>, trace: seq<Flight>, n: nat)
    requires IsRun(hz, run, trace) && n <= |run|
    ensures trace[n].esc.startTick == 0 <==> forall j | 0 <= j < n :: run[j].escTick == 0
    ensures (trace[n].esc.startTick != 0 ==>
      exists first: nat :: first < n && Starts(run, first) && run[first].escTick == trace[n].esc.startTick)
    ensures trace[n].esc.done <==> exists first, last :: DelayOver(hz, run, n, first, last)
  {
    if n > 0 {
      var m := n - 1;
      DelayExactly(hz, run, trace, m);
      assert Polls(hz, run, trace, m);
      if trace[m].esc.startTick == 0 {
        if run[m].escTick != 0 {
          assert Starts(run, m);
        }
      } else {
        var first: nat :| first < m && Starts(run, first) && run[first].escTick == trace[m].esc.startTick;
        if SinceMs(hz, run[m].escTick, run[first].escTick) >= ESC_DELAY_MS {
          assert DelayOver(hz, run, n, first, m);
        }
      }
      if first: nat, last: nat :| DelayOver(hz, run, m, first, last) {
        assert DelayOver(hz, run, n, first, last);
      }
      if first: nat, last: nat :| DelayOver(hz, run, n, first, last) && last < m {
        assert DelayOver(hz, run, m, first, last);
      }
    }
  }

  function PulseNs(s: Flight, motor: nat): int
    requires motor < 4
  {
    Programmed(s.enabled, s.esc.done, s.pwm.At(motor))
  }

  /** Enabled outputs carry the mixed pulses, below the kill level of the throttle; others are idle. */
  predicate Drives(s: Flight) {
    && Tuned(s.tuning)
    && (s.enabled <==> s.gate.latched && !s.emergency.latched)
    && (s.enabled ==> s.rc.throttle <= KILL_US)
    && s.pwm == if s.enabled then PulsesNow(s.rc, s.body, s.tuning) else ALL_IDLE
  }

  lemma AlwaysDrives(hz: Hz, run: seq<Inputs>, trace: seq<Flight>, n: nat)
    requires IsRun(hz, run, trace) && n <= |run|
    ensures Drives(trace[n])
  {
    if n > 0 {
      assert Polls(hz, run, trace, n - 1);
      RunsAreGated(hz, run, trace);
      assert GateMoves(hz, run, trace, n - 1);
    }
  }

  /** After every poll of every run each programmed pulse is between 1.0 and 1.5 ms, and it is 1.0 ms unless
      the pilot has armed and kept the gate live, no stop is latched, and the motor controllers have had their
      three seconds. */
  lemma PollSafety(hz: Hz, run: seq<Inputs>, trace: seq<Flight>, n: nat, motor: nat)
    requires IsRun(hz, run, trace) && n <= |run| && motor < 4
    ensures 1_000_000 <= PulseNs(trace[n], motor) <= 1_500_000
    ensures (PulseNs(trace[n], motor) != 1_000_000 ==>
      && (exists low, arm :: ArmedSince(hz, run, trace, n, low, arm))
      && (forall k :: !Stopped(run, n, k))
      && (exists first, last :: DelayOver(hz, run, n, first, last)))
  {
    RunsAreGated(hz, run, trace);
    ArmHistory(hz, run, trace, n);
    EmergencyLatchExactly(hz, run, trace, n);
    DelayExactly(hz, run, trace, n);
    AlwaysDrives(hz, run, trace, n);
  }

  /** At more than 1000 ticks a second the delay of the motor controllers never ends, and no motor ever turns. */
  lemma FastTicksNeverSpin(hz: Hz, run: seq<Inputs>, trace: seq<Flight>, n: nat, motor: nat)
    requires hz > 1000 && IsRun(hz, run, trace) && n <= |run| && motor < 4
    ensures PulseNs(trace[n], motor) == 1_000_000
  {
    PollSafety(hz, run, trace, n, motor);
    if first: nat, last: nat :| DelayOver(hz, run, n, first, last) {
      FastTicksStandStill(hz, run[last].escTick, run[first].escTick);
    }
  }

  /** With the throttle off its rest and the motors on, no limit of the mixer is ever reached. */
  lemma FlightNeverSaturates(hz: Hz, run: seq<Inputs>, trace: seq<Flight>, n: nat)
    requires IsRun(hz, run, trace) && n <= |run| && trace[n].enabled && trace[n].rc.throttle > IDLE_US
    ensures Tuned(trace[n].tuning)
    ensures (var s := trace[n];
      MixNow(s.rc, s.body, s.tuning) == RawMix(ActiveThrottle(s.rc.throttle), TorqueNow(s.rc, s.body, s.tuning)))
  {
    AlwaysDrives(hz, run, trace, n);
    MixerNeverSaturates(trace[n].rc.throttle, TorqueNow(trace[n].rc, trace[n].body, trace[n].tuning));
  }

  lemma PulseFollows(s: Flight, motor: nat)
    requires motor < 4 && s.enabled && s.esc.done
    requires MIN_SPIN_US.At(motor) <= s.pwm.At(motor) <= 1470 + TRIM_US.At(motor)
    ensures 1000 * MIN_SPIN_US.At(motor) <= PulseNs(s, motor) <= 1000 * (1470 + TRIM_US.At(motor))
  {
  }

  lemma DrivenInRange(s: Flight, motor: nat)
    requires Drives(s) && motor < 4 && s.enabled && s.esc.done && s.rc.throttle > IDLE_US
    ensures 1000 * MIN_SPIN_US.At(motor) <= PulseNs(s, motor) <= 1000 * (1470 + TRIM_US.At(motor))
  {
    PulsesInFlight(s.rc, s.body, s.tuning, motor);
    PulseFollows(s, motor);
  }

  /** With the throttle off its rest and the motors on, every motor turns, and none too fast. */
  lemma FlightPulsesInRange(hz: Hz, run: seq<Inputs>, trace: seq<Flight>, n: nat, motor: nat)
    requires IsRun(hz, run, trace) && n <= |run| && motor < 4
    requires trace[n].enabled && trace[n].esc.done && trace[n].rc.throttle > IDLE_US
    ensures 1000 * MIN_SPIN_US.At(motor) <= PulseNs(trace[n], motor) <= 1000 * (1470 + TRIM_US.At(motor))
  {
    AlwaysDrives(hz, run, trace, n);
    DrivenInRange(trace[n], motor);
  }

  predicate Programmable(us: Quad) {
    1000 <= us.lf <= 1500 && 1000 <= us.rf <= 1500 && 1000 <= us.rr <= 1500 && 1000 <= us.lb <= 1500
  }

  lemma PulsesInNumbers(throttle: int, q: Torque)
    requires 1000 < throttle <= KILL_US && Small(q)
    ensures Programmable(Shaped(throttle, q))
    ensures (var c := Max(throttle, 1250);
      Shaped(throttle, q)
        == Quad(Max(c + q.pitch + q.roll - q.yaw + 10, 1220), Max(c + q.pitch - q.roll + q.yaw, 1235),
                Max(c - q.pitch - q.roll - q.yaw, 1220), Max(c - q.pitch + q.roll + q.yaw + 10, 1220)))
  {
  }

  lemma PulsesAtRest(throttle: int, q: Torque)
    requires throttle <= 1000 && Small(q)
    ensures Programmable(Shaped(throttle, q))
    ensures (Shaped(throttle, q)
      == Quad(1010 + Max(q.pitch + q.roll - q.yaw, 0), 1000 + Max(q.pitch - q.roll + q.yaw, 0),
              1000 + Max(-q.pitch - q.roll - q.yaw, 0), 1010 + Max(-q.pitch + q.roll + q.yaw, 0)))
  {
  }

  lemma ProgrammedExactly(s: Flight)
    requires Drives(s) && s.enabled && s.esc.done && Programmable(s.pwm)
    ensures s.pwm == Shaped(s.rc.throttle, TorqueNow(s.rc, s.body, s.tuning))
    ensures Quad(PulseNs(s, 0), PulseNs(s, 1), PulseNs(s, 2), PulseNs(s, 3))
         == Quad(1000 * s.pwm.lf, 1000 * s.pwm.rf, 1000 * s.pwm.rr, 1000 * s.pwm.lb)
  {
    hide Shaped, TorqueNow;
  }

  /** The four pulses, in nanoseconds, for a collective c. */
  predicate InFlight(s: Flight, q: Torque, c: int) {
    && PulseNs(s, 0) == 1000 * Max(c + q.pitch + q.roll - q.yaw + 10, 1220)
    && PulseNs(s, 1) == 1000 * Max(c + q.pitch - q.roll + q.yaw, 1235)
    && PulseNs(s, 2) == 1000 * Max(c - q.pitch - q.roll - q.yaw, 1220)
    && PulseNs(s, 3) == 1000 * Max(c - q.pitch + q.roll + q.yaw + 10, 1220)
  }

  /** And with the throttle at rest. */
  predicate AtRest(s: Flight, q: Torque) {
    && PulseNs(s, 0) == 1000 * (1010 + Max(q.pitch + q.roll - q.yaw, 0))
    && PulseNs(s, 1) == 1000 * (1000 + Max(q.pitch - q.roll + q.yaw, 0))
    && PulseNs(s, 2) == 1000 * (1000 + Max(-q.pitch - q.roll - q.yaw, 0))
    && PulseNs(s, 3) == 1000 * (1010 + Max(-q.pitch + q.roll + q.yaw, 0))
  }

  lemma DrivenExactly(s: Flight)
    requires Drives(s) && s.enabled && s.esc.done
    ensures (var q := TorqueNow(s.rc, s.body, s.tuning);
      if s.rc.throttle > 1000 then InFlight(s, q, Max(s.rc.throttle, 1250)) else AtRest(s, q))
  {
    hide TorqueNow, Shaped, PulseNs, Max, Programmable;
    var q := TorqueNow(s.rc, s.body, s.tuning);
    if s.rc.throttle > 1000 {
      PulsesInNumbers(s.rc.throttle, q);
    } else {
      PulsesAtRest(s.rc.throttle, q);
    }
    ProgrammedExactly(s);
  }

  /** The four pulses of every run, in numbers: with the motors on, left front, right front, right rear and left rear
      get the collective and their shares of the torques, the two left ones 10 us more, and none less than makes it
      spin. With the throttle at rest the torques still reach the motors, but the lower limit cuts off what would slow
      one down. */
  lemma FlightPulsesExactly(hz: Hz, run: seq<Inputs>, trace: seq<Flight>, n: nat)
    requires IsRun(hz, run, trace) && n <= |run| && trace[n].enabled && trace[n].esc.done
    ensures Tuned(trace[n].tuning)
    ensures (var s := trace[n];
      var q := TorqueNow(s.rc, s.body, s.tuning);
      if s.rc.throttle > 1000 then InFlight(s, q, Max(s.rc.throttle, 1250)) else AtRest(s, q))
  {
    AlwaysDrives(hz, run, trace, n);
    hide TorqueNow, InFlight, AtRest;
    DrivenExactly(trace[n]);
  }

  // ---------- The dividers ----------

  /** Poll k finds a configuration that has ever been published. */
  predicate ShowsConfig(run: seq<Inputs>, k: nat)
    requires k < |run|
  {
    Readable(run[k].region)
    && (run[k].region.value.config.number != 0 || run[k].region.value.config.payload.updateSeq != 0)
  }

  predicate Numbered(slot: Slot<FlightConfig>) { slot.number != 0 || slot.payload.updateSeq != 0 }

  lemma TuningStep(t: Tuning, region: Option<Region>)
    ensures (var u := TuningAfter(t, region);
      && (u != t ==> SameDividers(u) && Readable(region) && Numbered(region.value.config))
      && (u != t ==> u.slotSeq != 0 || u.updateSeq != 0)
      && (SameDividers(t) ==> SameDividers(u))
      && (Readable(region) && Numbered(region.value.config) && t.slotSeq == 0 && t.updateSeq == 0 ==> u != t))
  {
  }

  /** The dividers of the three axes agree after n polls exactly when some poll has found a configuration, whatever
      it asked for, and then they agree for ever. */
  lemma {:induction false} DividersAgreeExactly(hz: Hz, run: seq<Inputs>, trace: seq<Flight>, n: nat)
    requires IsRun(hz, run, trace) && n <= |run|
    ensures SameDividers(trace[n].tuning) <==> exists k :: 0 <= k < n && ShowsConfig(run, k)
    ensures SameDividers(trace[n].tuning) || trace[n].tuning == INITIAL.tuning
    ensures trace[n].tuning.slotSeq == 0 && trace[n].tuning.updateSeq == 0 ==> trace[n].tuning == INITIAL.tuning
  {
    if n > 0 {
      var m := n - 1;
      DividersAgreeExactly(hz, run, trace, m);
      assert Polls(hz, run, trace, m);
      TuningStep(trace[m].tuning, run[m].region);
      assert ShowsConfig(run, m) <==> Readable(run[m].region) && Numbered(run[m].region.value.config);
    }
  }

  predicate RefusesConfig(region: Option<Region>) {
    Readable(region) ==> RefusedRate(region.value.config.payload) && RefusedAngle(region.value.config.payload)
  }

  lemma RefusedStep(t: Tuning, region: Option<Region>)
    requires RefusesConfig(region)
    ensures TuningAfter(t, region).rollDiv == t.rollDiv && TuningAfter(t, region).angleDiv == t.angleDiv
    ensures t.pitchDiv == t.rollDiv ==> TuningAfter(t, region).pitchDiv == t.rollDiv
    ensures TuningAfter(t, region).yawDiv == t.yawDiv || TuningAfter(t, region).yawDiv == t.rollDiv
  {
  }

  /** While no configuration asks for dividers in range, roll, pitch and angle dividers keep their power-on values,
      and the yaw divider follows the roll divider from the first configuration on. */
  lemma {:induction false} RefusedDividersStay(hz: Hz, run: seq<Inputs>, trace: seq<Flight>, n: nat)
    requires IsRun(hz, run, trace) && n <= |run|
    requires forall k :: 0 <= k < n ==> RefusesConfig(run[k].region)
    ensures trace[n].tuning.rollDiv == trace[n].tuning.pitchDiv == 12 && trace[n].tuning.angleDiv == 180
    ensures trace[n].tuning.yawDiv == 12 || trace[n].tuning.yawDiv == 16
    ensures trace[n].tuning.yawDiv == 12 <==> exists k :: 0 <= k < n && ShowsConfig(run, k)
  {
    if n > 0 {
      var m := n - 1;
      RefusedDividersStay(hz, run, trace, m);
      assert Polls(hz, run, trace, m);
      RefusedStep(trace[m].tuning, run[m].region);
    }
    DividersAgreeExactly(hz, run, trace, n);
  }
}
