# Verified model of the dual-core flight controller

The system flies an F450 frame with two cores. A Linux core publishes commands into a shared-memory region; a
real-time core reads them, reads the radio and the sensors, and drives four motors. There are two real-time
programs: the bring-up loop in C (`comm_main.c`) and the formal node in C++ (`rt_core/`), which is to replace it.
This project models both, the region between the cores, and the arithmetic underneath, in Dafny, and proves what
holds in every run of them.

| module | models |
|---|---|
| `Options`, `Numbers` | what several modules share |
| `Crc32` | the bitwise CRC of the slots (reflected polynomial 0xEDB88320, as in section 8 of RFC 1952 and clause 3.2.9 of IEEE 802.3) |
| `SharedSlot` | one slot, its writer preempted anywhere, its reader in one go |
| `SlotRace` | the same slot with a reader that can be overtaken between any two accesses |
| `ConfigBytes` | how a configuration lies in memory, and what its floats stand for |
| `EmergencySlot` | the emergency slot as the bring-up loop reads it, without its CRC |
| `DoorbellRing` | the 32-entry ring between interrupt handler and poller, one access to a field at a time |
| `Protocol` | the region and the commands in it |
| `MailboxTransport`, `RtosTransport` | the writing and the polling side |
| `IntegerMath` | integer square root, integer arc tangent, attitude angles |
| `Ibus` | the receiver frames: encoder, both parsers, the formal receiver |
| `Estimator` | the Kalman filters and the yaw correction, in reals |
| `Mixer`, `FlightLoop`, `FlightRuns` | the bring-up loop: its numbers, its globals, its runs |
| `Radio` | the bring-up loop from the octets of its radio on |
| `Stage3` | the replacement of its last stage, and when it agrees |
| `RtControl`, `RtNode` | controller, actuator, arm state, failsafe and schedule of the formal node, from the octets of its receiver to the pulses of its motors |
| `ConfigSync` | a configuration on its way from Linux to the controller |

Code that changes state step by step is a class or a method with loops, proved against functions on values; the
results over whole runs are lemmas about those functions. Inputs from hardware (octets, samples, clocks, the
outcome of flushes and ioctls) are arbitrary parameters. Ticks of the bring-up loop are 32 bits wide and wrap.

## Results that go against comments, documentation or expectation

The model follows the code. Where the code does not do what is written beside it, or what one would expect of it, one
lemma gives an input and another says exactly when it does.

- `README.md` line 23 says that arming needs the throttle at or below 1100 us. That is checked on the receiver's
  path only; the mailbox arms at any throttle. Input: `RtNode.ArmsAtFullThrottle`. Exactly:
  `RtNode.HighThrottleArmsExactly`. Linux itself only ever asks for failsafe, and then the throttle has to be low
  (`RtNode.WithoutMailboxArmsLow`).
- `comm_main.c` lines 1892-1895 say that after a reconnect the switch must be seen low first. Loss is judged by two
  clocks; if only the first notices, the old low still counts. Input: `FlightRuns.ReconnectWithoutLow`. Exactly, for
  the next poll and for all later ones: `FlightRuns.ReconnectArmsExactly`, `FlightRuns.ReconnectWithoutNewLowExactly`.
- `comm_main.c` lines 1688-1692 say that an out-of-range rate divider is ignored. All three dividers then become the
  roll divider, also the yaw divider, which starts out larger. Input: `FlightLoop.RefusedRateChangesYaw`, with what it
  does to the yaw axis in `FlightLoop.RefusedRateSharpensYaw`. Exactly: `FlightLoop.RefusedRateKeepsDividersExactly`,
  and over runs `FlightRuns.DividersAgreeExactly`. Since no divider within the limits of Linux is in range here, it
  happens at the first configuration and no divider from Linux is ever taken (`ConfigSync.BringUpRefusesLinuxDividers`,
  `ConfigSync.LinuxNeverTunesBringUp`).
- Clearing an emergency stop restarts the motors at once. Input: `FlightRuns.ClearingRestarts`. Exactly:
  `FlightRuns.ClearingRestartsExactly`.
- `comm_main.c` lines 1851 and 2218 count the age of a frame and the delay of the motor controllers in whole
  milliseconds a tick. Input: above 1000 ticks a second no frame ever grows old by its own tick, and no motor ever
  turns, `FlightRuns.FastTicksNeverSpin`. Exactly: they are milliseconds if and only if the tick rate divides 1000,
  `FlightLoop.MillisecondsExactly`.
- The CRC does not protect setpoint, heartbeat and configuration against torn reads, although they carry their own
  numbers. Input: `SharedSlot.TornReadPossible`. Exactly: `Protocol.SlotSafetyExactly`, and by size alone
  `SharedSlot.TornSafetyExactly`.
- A payload can be delivered under the number of its predecessor, and then again under its own. Input:
  `SharedSlot.DeliveredTwice`. Exactly: `SharedSlot.OwnNumberExactly`.
- The reader checks the slot itself and copies it afterwards, so if the writer overtakes it in between, the check is of
  no use to the copy. Input: `SlotRace.MixedDelivery`. Exactly: `SlotRace.WholeInRacesExactly`; of the five slots the
  arm slot and the emergency slot are safe even then, and only these (`SlotRace.RaceSafetyExactly`). Mixtures are never
  stale and do not last (`SlotRace.NothingIsStale`, `SlotRace.QuietReadCatchesUp`).
- The bring-up loop reads the emergency slot without its CRC, so a half-copied stop over a stop can read as a clear.
  Input, down to the motors that start again: `EmergencySlot.HalfCopiedStopRestarts`. Exactly:
  `EmergencySlot.StopsReadAsStopsExactly`; with the one reason that Linux uses it cannot happen
  (`EmergencySlot.LinuxStopsReadAsStops`).
- A configuration whose send fails is flown all the same, and a retry can be turned down. Input:
  `ConfigSync.BootRetryIsTurnedDown`. Exactly: `ConfigSync.AgreementAfterPushExactly`, `ConfigSync.RetryIsTurnedDown`,
  and over every history `ConfigSync.AgreementExactly`.
- The new last stage spins up a motor that the bring-up loop leaves near idle. Input: `Stage3.StagesDiffer`. Exactly:
  `Stage3.Stage3AgreesExactly`.
- The arc tangent is not odd in y on the negative x axis, and nowhere else: input and condition are both in
  `IntegerMath.Atan2OddExactly`.
- A valid radio frame can be lost. Input: a header octet in front of it, `Ibus.StrayHeaderLosesFrame`. Exactly: of
  single octets only that one, `Ibus.StrayOctetExactly`, and of all that can come before exactly what leaves the parser
  in the middle of something, `Ibus.FrameIsHeardExactly`.

## Model

| member | source | states |
|---|---|---|
| `Crc32.Compute` | common/protocol.hpp:129-139 | the two nested loops compute the CRC of their whole input |
| `Crc32.BitStepPlus` | common/protocol.hpp:133-137 | one bit step is linear over exclusive or |
| `Crc32.BitStepInjective` | common/protocol.hpp:133-137 | one bit step loses no information, so it can be undone |
| `Crc32.CrcAffine` | common/protocol.hpp:129-139 | for three strings of one length the three CRCs add up to the CRC of the three strings added up |
| `Crc32.UndetectedIffZeroSyndrome` | common/protocol.hpp:129-139 | an error goes unnoticed if and only if its own pattern folds to zero, whatever the message |
| `Crc32.FoldPacked` | common/protocol.hpp:129-139 | up to four bytes enter the register as one word of up to 32 bits |
| `Crc32.BurstSyndrome` | common/protocol.hpp:129-139 | a non-zero pattern confined to four consecutive bytes never folds to zero |
| `Crc32.BurstDetected` | common/protocol.hpp:129-139 | strings of one length that differ only inside four consecutive bytes have equal CRCs if and only if they are equal |
| `Crc32.CrcInjectiveUpTo4` | common/protocol.hpp:141-145 | on payloads of up to four bytes (the arm and emergency payloads) the payload CRC is injective |
| `Crc32.CrcCollidesFrom5` | common/protocol.hpp:141-145 | every payload of five bytes or more shares its CRC with another of its length, so four is the exact limit |
| `Crc32.CheckValue` | common/protocol.hpp:129-139 | the published check value of this polynomial, initial value and complement, on the digits 1 to 9 |
| `SharedSlot.NumbersIncrease` | rt_core/RtosCmdquIsrTransport.cpp:146-183 | in every interleaving of writer and reader steps the accepted numbers strictly increase |
| `SharedSlot.TornPublishSafe` | linux_core/MailboxTransport.cpp:89-96 | with payload bytes, CRC and number written in this order, in every interleaving a payload of up to four bytes is delivered only if the writer wrote it whole |
| `SharedSlot.QuietPollCatchesUp` | rt_core/RtosCmdquIsrTransport.cpp:146-183 | once the writer rests, one more poll leaves the reader with the last published payload and its number |
| `SharedSlot.SoloPublish` | linux_core/MailboxTransport.cpp:89-96 | an uninterrupted publish replaces payload, CRC and number together |
| `SharedSlot.TornReadPossible` | linux_core/MailboxTransport.cpp:231-302 | over any first payload of nine bytes or more that ends with its number, a second one that ends with the next number is half copied, and the mixture, carrying the very number it is delivered under, is delivered although nobody wrote it |
| `SharedSlot.TornContentPossible` | linux_core/MailboxTransport.cpp:89-96 | with payloads of any content such a run exists from five bytes on |
| `SharedSlot.TornSafetyExactly` | linux_core/MailboxTransport.cpp:89-96 | for payloads of any content, all runs are free of torn deliveries if and only if the payload has at most four bytes |
| `SharedSlot.DeliveredTwice` | rt_core/RtosCmdquIsrTransport.cpp:146-183 | a run in which one payload is delivered under two numbers, so a delivery need not carry its own number |
| `SharedSlot.OwnNumberExactly` | rt_core/RtosCmdquIsrTransport.cpp:146-183 | a delivery of at most four bytes is the payload of its number if and only if the writer was not about to store the next number with another payload |
| `Protocol.SafetyPayloadsArriveWhole` | common/protocol.hpp:70-79 | the arm and the emergency payload are four bytes, so in every interleaving of the writer's steps with one-call readings they arrive whole |
| `Protocol.CollidingIsSendable` | linux_core/TelemetryNode.cpp:265-272 | the default configuration and the one that collides with it are both within the limits of pushConfig, float by float, and end with the numbers 1 and 2; likewise for setpoint and heartbeat |
| `Protocol.SlotSafetyExactly` | linux_core/MailboxTransport.cpp:231-302 | of the five slots with the payloads that Linux can put into them, configurations within their limits, exactly the arm and the emergency slot are free of torn deliveries in every interleaving with one-call readings |
| `SlotRace.NumbersIncreaseInRaces` | rt_core/RtosCmdquIsrTransport.cpp:133-196 | with single accesses of both sides interleaved in any way, verifying, comparing, remembering and copying included, the accepted numbers strictly increase |
| `SlotRace.NothingIsStale` | rt_core/RtosCmdquIsrTransport.cpp:133-196 | and every byte delivered is of the payload of its number or of a later one |
| `SlotRace.MixedDelivery` | rt_core/RtosCmdquIsrTransport.cpp:133-196 | two payloads that differ in two bytes: a run that verifies the first and delivers a mixture of both |
| `SlotRace.WholeInRacesExactly` | rt_core/RtosCmdquIsrTransport.cpp:133-196 | over a stock of payloads every run delivers only what was sent, under its number or later, if and only if no two payloads differ in more than one byte |
| `SlotRace.MixtureIsHandedOn` | rt_core/RtosCmdquIsrTransport.cpp:133-196 | for setpoint, heartbeat and configuration, a run with payloads that Linux can put into them which hands on a mixture |
| `SlotRace.RaceSafetyExactly` | rt_core/RtosCmdquIsrTransport.cpp:133-196 | of the five slots with the payloads that Linux can put into them, exactly the arm and the emergency slot then hand on only what was sent, the latter because only the fact of a stop is handed on |
| `SlotRace.LinuxStopsArriveWhole` | linux_core/TelemetryNode.cpp:119-124 | with the one reason that Linux uses even the reasons arrive whole |
| `SlotRace.StopsAreNew` | rt_core/RtosCmdquIsrTransport.cpp:172-183 | every stop reported was published, under a number larger than all reported before |
| `SlotRace.QuietReadCatchesUp` | rt_core/RtosCmdquIsrTransport.cpp:133-196 | once the writer rests one more read leaves the last payload, whole and under its own number, as the last delivery, whatever happened before |
| `SharedSlot.UnverifiedBytes` | linux_core/MailboxTransport.cpp:89-96 | in every interleaving each byte of a slot is of the payload its number names or of the next one |
| `SharedSlot.BlankMixture` | linux_core/MailboxTransport.cpp:89-96 | two payloads with nothing in the same byte: a run whose slot shows neither, but a blank, under the first number |
| `SharedSlot.BlankIsMeantExactly` | comm_main.c:1652-1660 | for a reader that trusts the number alone: over a stock of payloads a blank read is always meant if and only if any two payloads that are not blank have something in the same byte |
| `EmergencySlot.LatchReadsBytes` | comm_main.c:1652-1660 | a new emergency slot sets the latch if and only if one of its four bytes is not zero, whatever its CRC |
| `EmergencySlot.StopsReadAsStopsExactly` | comm_main.c:1652-1660 | over a set of reasons, in every interleaving no half-copied stop reads as a clear, if and only if any two reasons to stop share a byte |
| `EmergencySlot.HalfCopiedStopRestarts` | comm_main.c:1652-1660 | from the steps of the writer to the motors: after a first stop, a third stop half copied over a second one that shares no byte with it reads as a clear and starts the motors again |
| `EmergencySlot.LinuxStopsReadAsStops` | linux_core/TelemetryNode.cpp:119-124 | with reason 1 alone, as Linux sends it, that is so |
| `DoorbellRing.Ring.OnCmdFromMailbox` | rt_core/RtosCmdquIsrTransport.cpp:106-120 | the entry is appended unless 31 are held, then nothing changes |
| `DoorbellRing.Ring.PopCommand` | rt_core/RtosCmdquIsrTransport.cpp:122-131 | the oldest entry is taken, or none if there is none |
| `DoorbellRing.FifoUnderAllInterleavings` | rt_core/RtosCmdquIsrTransport.cpp:106-131 | under every interleaving of single accesses of interrupt handler and poller, the two fields of an entry stored and copied one by one, what was popped is a prefix of what was accepted, which is what was offered less the drops, in order; at most 31 are held |
| `DoorbellRing.UnreadNeverOverwritten` | rt_core/RtosCmdquIsrTransport.cpp:106-131 | no access of either side changes an unread entry |
| `DoorbellRing.DroppedOnlyWhenFull` | rt_core/RtosCmdquIsrTransport.cpp:106-120 | a doorbell is dropped if and only if the handler finds 31 held |
| `DoorbellRing.DrainedInOrder` | rt_core/RtosCmdquIsrTransport.cpp:122-131 | a poller left alone takes out everything accepted, in order, in five accesses for each entry |
| `RtosTransport.Transport.Poll` | rt_core/RtosCmdquIsrTransport.cpp:47-83 | the poll with its drain loop does what the specification with doorbells says, and leaves the doorbells that says |
| `RtosTransport.Transport.Dispatch` | rt_core/RtosCmdquIsrTransport.cpp:54-75 | a doorbell takes the slot it names if that is new, and ends the poll if it was an emergency |
| `RtosTransport.Transport.ParseRest` | rt_core/RtosCmdquIsrTransport.cpp:78-82 | the four slots below the emergency slot are taken in the order of their priority |
| `RtosTransport.Transport.ParseSetpoint` | rt_core/RtosCmdquIsrTransport.cpp:133-144 | accepted if and only if the CRC fits and the number is larger than the last; then payload and number are taken |
| `RtosTransport.Transport.ParseArm` | rt_core/RtosCmdquIsrTransport.cpp:146-157 | the same for the arm slot |
| `RtosTransport.Transport.ParseHeartbeat` | rt_core/RtosCmdquIsrTransport.cpp:159-170 | the same for the heartbeat slot |
| `RtosTransport.Transport.ParseEmergency` | rt_core/RtosCmdquIsrTransport.cpp:172-183 | the same for the emergency slot; only the fact is taken |
| `RtosTransport.Transport.ParseConfig` | rt_core/RtosCmdquIsrTransport.cpp:185-196 | the same for the configuration slot |
| `RtosTransport.DoorbellsAreHints` | rt_core/RtosCmdquIsrTransport.cpp:47-83 | whatever the ring holds, the poll delivers the same command and remembers the same numbers; only an emergency leaves doorbells behind |
| `RtosTransport.EmergencyLeavesTheRest` | rt_core/RtosCmdquIsrTransport.cpp:47-52 | an accepted emergency is delivered alone, and the next poll delivers exactly what this one would have without it |
| `RtosTransport.SecondPollIsEmpty` | rt_core/RtosCmdquIsrTransport.cpp:47-83 | nothing is delivered twice from an unchanged region |
| `RtosTransport.PollDeliversExactly` | rt_core/RtosCmdquIsrTransport.cpp:47-83 | a poll delivers the payloads of exactly the verified slots whose number is above the last taken, each as what it is, and remembers these numbers; a new emergency is delivered and remembered alone |
| `RtosTransport.NamedExactly` | rt_core/RtosCmdquIsrTransport.cpp:54-75 | a doorbell 0x30 to 0x34 takes the news of setpoint, arm, heartbeat, emergency or configuration slot and leaves the other four alone; any other takes nothing |
| `RtosTransport.PublishedIsDelivered` | rt_core/RtosCmdquIsrTransport.cpp:133-196 | round trip: what the Linux side publishes in any slot under the next number, the next poll delivers, whatever the other slots hold, unless there is a new emergency, which is delivered too |
| `MailboxTransport.PublishSlot` | linux_core/MailboxTransport.cpp:89-96 | payload, CRC and number are written; a published slot with a number verifies |
| `MailboxTransport.Mailbox.WriteSetpointCache` | linux_core/MailboxTransport.cpp:231-249 | the slot is published under the given or the next number; a region with a wrong header is cleared first |
| `MailboxTransport.Mailbox.WriteArmCache` | linux_core/MailboxTransport.cpp:251-261 | the arm slot is published under the next number; with a wrong header nothing is written |
| `MailboxTransport.Mailbox.WriteHeartbeatCache` | linux_core/MailboxTransport.cpp:263-274 | the same for the heartbeat, under the given or the next number |
| `MailboxTransport.Mailbox.WriteEmergencyCache` | linux_core/MailboxTransport.cpp:276-286 | the same for the emergency slot, under the next number |
| `MailboxTransport.Mailbox.WriteConfigCache` | linux_core/MailboxTransport.cpp:288-302 | the same for the configuration, whose own number is set to that of the slot |
| `IntegerMath.Isqrt` | comm_main.c:1379-1399 | every number has an r with r*r <= v < (r+1)*(r+1) |
| `IntegerMath.IsqrtUnique` | comm_main.c:1379-1399 | and only one |
| `IntegerMath.Isqrt64` | comm_main.c:1379-1399 | for every 64-bit value the two loops end, without wrap-around, with the integer square root |
| `IntegerMath.Atan2Range` | comm_main.c:1401-1422 | all angles lie in [-18000, 18000], in [-9000, 9000] to the right, and are not negative above |
| `IntegerMath.Atan2Complement` | comm_main.c:1401-1422 | in the first quadrant the angles of (y, x) and (x, y) add up to 9000 exactly |
| `IntegerMath.Atan2Scales` | comm_main.c:1401-1422 | the angle does not depend on the length of the vector |
| `IntegerMath.Atan2FirstOctant` | comm_main.c:1411-1412 | between 0 and 45 degrees the angle is 4500 times the slope, rounded down: a * x <= 4500 * y < (a + 1) * x; with the complement, the reflections and oddness this fixes every angle |
| `IntegerMath.Atan2Reflects` | comm_main.c:1417-1421 | reflection in the y axis takes the angle to 18000 minus it |
| `IntegerMath.Atan2OddExactly` | comm_main.c:1401-1422 | reflection negates the angle if and only if the vector is not on the negative x axis, where both angles are 18000 |
| `IntegerMath.Atan2MonotoneUpper` | comm_main.c:1401-1422 | in the open upper half plane turning left never lowers the angle, across all four octants |
| `IntegerMath.Atan2Monotone` | comm_main.c:1401-1422 | the same on the closed half plane |
| `IntegerMath.PitchContract` | comm_main.c:1457-1464 | pitch has the sign of -ax, is level if and only if the slope is below a hundredth of a degree, is that slope times 4500 rounded toward level below 45 degrees, and the complement above |
| `IntegerMath.HeadingContract` | comm_main.c:1465-1469 | the heading lies in [0, 36000) and differs from the angle of the field by whole turns |
| `IntegerMath.Attitude.UpdateOnce` | comm_main.c:1424-1472 | roll, pitch and yaw are the angle of (ay, az), the pitch above and the heading above, within [-18000, 18000], [-9000, 9000] and [0, 35999] for all 16-bit samples; without sensors nothing changes |
| `Ibus.EncodeFrame` | rt_core/Receiver.cpp:45-62 | the encoder loop writes the frame of its channels |
| `Ibus.SumOctets` | rt_core/Receiver.cpp:203-209 | the loop adds up all octets but the checksum, modulo 65536 |
| `Ibus.EncodeDecode` | rt_core/Receiver.cpp:45-62 | every encoding is a valid frame and decodes to its channels |
| `Ibus.DecodeEncode` | rt_core/Receiver.cpp:185-209 | every valid frame is the encoding of its channels, so frames and channels correspond one to one |
| `Ibus.FeedInChunks` | rt_core/Receiver.cpp:153-183 | cutting a stream into chunks anywhere changes nothing |
| `Ibus.RoundTrip` | comm_main.c:461-502 | feeding either idle parser the encodings of any list of channel values yields exactly that list |
| `Ibus.AcceptsOnlyFrames` | rt_core/Receiver.cpp:153-183 | on any input a parser accepts only when its last 32 octets are a frame with the right header and checksum, and delivers that frame |
| `Ibus.StrayHeaderLosesFrame` | comm_main.c:461-502 | one stray header octet makes either parser lose the frame behind it |
| `Ibus.StrayOctetExactly` | comm_main.c:461-502 | one octet in front of a frame costs either parser that frame if and only if it is the header octet |
| `Ibus.FrameIsHeardExactly` | rt_core/Receiver.cpp:153-183 | after any octets whatever, either parser accepts the frame that follows, at its last octet, if and only if it was idle when the frame began |
| `Ibus.StrayHeaderCostsOneFrame` | comm_main.c:461-502 | the bring-up parser loses only that frame and is in step again |
| `Ibus.LastAtExactly` | rt_core/Receiver.cpp:112-118 | a poll finds a place of a last frame if and only if its octets yield a frame |
| `Ibus.LastAtFrame` | rt_core/Receiver.cpp:153-183 | the last frame accepted from any stream is the 32 octets up to where it was accepted |
| `Ibus.ScannedIsFed` | rt_core/Receiver.cpp:112-118 | reading octet by octet leaves the last frame of the burst with the clock at its last octet |
| `Ibus.PollKeepsHearing` | rt_core/Receiver.cpp:105-135 | over any number of polls the receiver knows the time of the last frame of all octets read, and has its channels as shaped when it was read, unless it has centred them since |
| `Ibus.PollShowsFrame` | rt_core/Receiver.cpp:105-135 | every sample has the channels of the last frame of all octets read, shaped, or is centred with throttle and arm switch low, as it is whenever the link is lost; without failsafe the failsafe channel is low |
| `Ibus.LostIsFailsafe` | rt_core/Receiver.cpp:119-133 | no poll reports a lost link without failsafe |
| `Ibus.BusyPollExactly` | rt_core/Receiver.cpp:112-118 | a poll that completes frames reports and keeps the last of them, shaped, with the clock at its last octet and failsafe if and only if its channel 5 is above 1500 |
| `Ibus.QuietPollExactly` | rt_core/Receiver.cpp:119-133 | a poll that completes none reports the kept sample while its frame is at most 80 ms old; otherwise a lost link with failsafe, centred sticks, throttle and arm switch low, which it keeps |
| `Ibus.Elapsed64Exactly` | rt_core/Receiver.cpp:137-142 | ages are differences of 64-bit clocks, modulo 2^64 |
| `Ibus.OneFrameIsHeard` | rt_core/Receiver.cpp:105-135 | a fresh receiver that reads one encoded frame reports exactly that frame, shaped, with the clock at its last octet |
| `Ibus.BringUpParser.ParseByte` | comm_main.c:461-502 | the bring-up parser over its static buffer does what the specification says, return codes and channels included |
| `Ibus.BringUpParser.CountDown` | comm_main.c:485-493 | the wrapping countdown is the checksum |
| `Ibus.Receiver.PushByte` | rt_core/Receiver.cpp:153-183 | the formal parser over its buffer does what the specification says and stamps accepted frames |
| `Ibus.Receiver.DecodeFrame` | rt_core/Receiver.cpp:185-201 | accepts by checksum alone and shapes roll, pitch, yaw and throttle |
| `Ibus.Receiver.Init` | rt_core/Receiver.cpp:98-103 | nothing held, no sample, no time of a frame |
| `Ibus.Receiver.PushAll` | rt_core/Receiver.cpp:112-118 | the octet loop leaves what octet-by-octet reading leaves, and reports a frame if and only if there is one |
| `Ibus.Receiver.Poll` | rt_core/Receiver.cpp:105-135 | reports the last frame of a burst, or the last sample with its link, or a centred sample with failsafe, and keeps time, sample and octets accordingly |
| `Ibus.ThrottleExpoCurve` | rt_core/Receiver.cpp:32-43 | the throttle curve stays in range, keeps both ends and the middle, and never turns back |
| `Ibus.ThrottleExpoExactly` | rt_core/Receiver.cpp:32-43 | in between it is the cubic of the stick about the middle, mixed with the straight line by the setting and rounded to the nearest |
| `Ibus.ShapeExactly` | rt_core/Receiver.cpp:192-199 | of the fourteen channels only four are touched: channel 2 goes through the throttle curve, and channels 0, 1 and 3 become the middle if and only if they are closer to it than the deadzone |
| `Estimator.AxisKalman.Update` | rt_core/Estimator.cpp:10-36 | the in-place assignments are one prediction F P F' + dt Q and one correction (I - K H) P of the angle less bias, and the covariance stays positive definite |
| `Estimator.PredictKeepsCovariance` | rt_core/Estimator.cpp:14-17 | prediction keeps the matrix symmetric and positive definite and never lowers its determinant |
| `Estimator.CorrectKeepsCovariance` | rt_core/Estimator.cpp:19-33 | so does correction, with a gain strictly between 0 and 1, a posterior variance below that of the measurement, and the two informations added |
| `Estimator.PredictionSpreads` | rt_core/Estimator.cpp:11-17 | the predicted variance of every combination of angle and bias is the variance the same combination had before the angle moved by dt times rate less bias, plus the noise of that time |
| `Estimator.CorrectionFitsBest` | rt_core/Estimator.cpp:19-33 | the corrected angle and bias are the only pair that fits prediction and measurement best, each weighed by its covariance |
| `Estimator.CorrectionBalances` | rt_core/Estimator.cpp:19-25 | the correction divides what remains of the innovation between angle and bias in the ratio of their covariances to the noise of the measurement |
| `Estimator.TrueSpeedIsFollowed` | rt_core/Estimator.cpp:10-25 | with a measured rate of true rate plus bias, and an angle that has moved by dt times the true rate, one update returns exactly that angle and keeps the bias |
| `Estimator.Run` | rt_core/Estimator.cpp:10-36 | over every list of measurements with dt >= 0 all divisions are defined and the covariance stays positive definite |
| `Estimator.EveryCorrectionLiesBetween` | rt_core/Estimator.cpp:19-24 | in every run every corrected angle lies strictly between prediction and measurement, unless they agree |
| `Estimator.BiasTakesTheBlame` | rt_core/Estimator.cpp:10-36 | in every run from power-on with dt > 0 the bias falls if and only if the frame is found further than expected and rises if and only if less far, and the angle moves toward the measurement |
| `Estimator.WrapContract` | rt_core/Estimator.cpp:90-98 | the wrapped angle lies in [-180, 180] and differs by whole turns |
| `Estimator.WrapUnique` | rt_core/Estimator.cpp:90-98 | inside the open interval the wrapped angle is the only one of its direction |
| `Estimator.WrapAngleDeg` | rt_core/Estimator.cpp:90-98 | the two loops terminate with the wrapped angle |
| `Estimator.CorrectionShrinksError` | rt_core/Estimator.cpp:61-88 | one correction leaves exactly (1 - alpha) of the wrapped heading error, across the seam too, with alpha in [0.001, 0.03] |
| `Estimator.CorrectionPace` | rt_core/Estimator.cpp:65-88 | the part removed is 1.5 dt where that is between 0.001 and 0.03, the nearer of these where it is not, and none for dt <= 0 |
| `Estimator.ErrorDiesOut` | rt_core/Estimator.cpp:61-88 | after n corrections towards a steady heading at most 0.999^n of the error is left |
| `Estimator.TurningIsFollowed` | rt_core/Estimator.cpp:42-59 | a frame that turns at the speeds its gyros read less what their filters hold for the bias is reported as it is, each axis from its own samples, and the filters keep their biases |
| `Estimator.AttitudeEstimator.Update` | rt_core/Estimator.cpp:42-59 | both filters take one step and the yaw is integrated |
| `Estimator.AttitudeEstimator.CorrectYawFromMag` | rt_core/Estimator.cpp:61-88 | only the yaw changes, to the corrected yaw |
| `Mixer.TimesIsDivision` | comm_main.c:1955-1973 | the division used by setpoints and torques is truncating integer division |
| `Mixer.StickMap` | comm_main.c:1822-1832 | the rate setpoint is zero if and only if the stick is in the deadzone, in proportion to it up to the full range at the ends, and never falls as the stick rises |
| `Mixer.AnglesAskedFor` | comm_main.c:1941-1974 | the angle setpoints are 4 centidegrees for each microsecond off the middle, roll with the stick and pitch against it, and all is zero without a radio |
| `Mixer.TorqueIsSmall` | comm_main.c:2008-2044 | every torque is within 40 us |
| `Mixer.FeedbackOpposes` | comm_main.c:2008-2044 | turning faster or leaning further never raises the torque of an axis; without an error there is none |
| `Mixer.BodyIsOpposed` | comm_main.c:1976-2045 | whatever the pilot asks for, leaning further or turning faster never raises the torque of that axis: roll, pitch and yaw, from the measurements of the body |
| `Mixer.CorrectionExactly` | comm_main.c:2008-2016 | a correction has the direction of its error and one unit for every div units of it, up to the limit |
| `Mixer.TorqueNowExactly` | comm_main.c:1976-2045 | each torque is the correction of the rate that is missing by the divider of its axis; where no rotation is asked for in roll or pitch, it brakes and brings back to level, within 40 us |
| `Mixer.SmallerDivCorrectsMore` | comm_main.c:2008-2016 | a smaller divider never corrects less |
| `Mixer.AxesAreSeparate` | comm_main.c:1976-2045 | the torque of an axis depends on its own stick and measurements only |
| `Mixer.SticksTurnTheFrame` | comm_main.c:1955-1973 | on a level frame at rest full sticks turn it in their direction, pitch against it, and centred sticks do not |
| `Mixer.MixerNeverSaturates` | comm_main.c:2047-2088 | with the throttle above idle and below the kill level the collective is in [1250, 1350], no clamp fires, and sum and differences of the mix give collective and torques back |
| `Mixer.FlightPulses` | comm_main.c:1797-1820 | then each pulse is the larger of trimmed mix and slowest spinning pulse, in [min spin, 1470 + trim] |
| `Mixer.FlightPulsesReachBothEnds` | comm_main.c:1797-1820 | both ends of that range are reached, for every tuning |
| `Mixer.Trimmed` | comm_main.c:1797-1820 | whatever mix and throttle, a trimmed pulse is in [1000, 1500] |
| `FlightLoop.TuningStaysTuned` | comm_main.c:1671-1706 | no configuration brings a divider or the deadzone out of range, so nothing divides by zero |
| `FlightLoop.RetunedExactly` | comm_main.c:1671-1706 | a configuration with a new number takes the three rate dividers and the angle divider, rounded down, if and only if they are in range, and the deadzone within its limits unless it is zero; any other changes nothing |
| `FlightLoop.RefusedRateKeepsDividersExactly` | comm_main.c:1688-1704 | after a refused rate divider the three dividers are what they were if and only if they agreed before; a refused angle divider always keeps its own |
| `FlightLoop.RefusedRateChangesYaw` | comm_main.c:1688-1704 | the default configuration, first after power-on, is refused and takes the yaw divider from 16 to 12 |
| `FlightLoop.RefusedRateSharpensYaw` | comm_main.c:1688-1704 | then the yaw correction is never weaker for any error, and stronger for some |
| `FlightLoop.ReasonExactly` | comm_main.c:2502-2515 | after every poll the reason is that nothing is wrong if and only if the motors are enabled, and otherwise names the worst of what is wrong |
| `FlightLoop.MillisecondsExactly` | comm_main.c:1851-1852 | the age of a frame and the delay of the motor controllers count milliseconds if and only if the tick rate divides 1000 |
| `FlightLoop.ClocksJudgeAlike` | comm_main.c:2479-2480 | then both clocks judge the same age alike |
| `FlightLoop.BringUp.constructor` | comm_main.c:609-824 | the power-on globals, from which every run starts |
| `FlightLoop.BringUp.SetAll` | comm_main.c:1520-1533 | all four pulses, within [1000, 2000] |
| `FlightLoop.BringUp.ForceSafe` | comm_main.c:1535-1553 | disarmed, outputs off, torques zero, mix and pulses idle; the arm latch is untouched |
| `FlightLoop.BringUp.Receive` | comm_main.c:2447-2467 | after a burst the last frame and its two timestamps are kept |
| `FlightLoop.BringUp.ReadRc` | comm_main.c:2481-2497 | the channels of the last frame, or the safe substitute once the link is lost by the poll's clock |
| `FlightLoop.BringUp.PollRegion` | comm_main.c:1631-1718 | emergency latch and tuning become what their specifications say; a latched emergency forces the safe state |
| `FlightLoop.BringUp.PollConfig` | comm_main.c:1671-1706 | the tuning becomes that of Retuned: one requested rate divider for all three axes, out of range the roll divider; deadzone within its limits, zero meaning unchanged |
| `FlightLoop.BringUp.UpdateFreshness` | comm_main.c:1834-1863 | a link stale by the frame's clock invalidates the radio and forgets low switch and latch |
| `FlightLoop.BringUp.UpdateArmGate` | comm_main.c:1865-1939 | all the early returns together are one formula for the gate; armed, allowed and latched agree |
| `FlightLoop.BringUp.UpdateSetpoint` | comm_main.c:1941-1974 | the setpoint of the sticks |
| `FlightLoop.BringUp.UpdatePid` | comm_main.c:1976-2045 | the torque of the poll, zero without radio, sensors or attitude |
| `FlightLoop.BringUp.UpdateTorques` | comm_main.c:1996-2044 | rate feedback with each axis' divider, assist where no rotation is asked for, both limited |
| `FlightLoop.BringUp.ApplyThrottleFloor` | comm_main.c:2047-2057 | the collective floor |
| `FlightLoop.BringUp.UpdateMixer` | comm_main.c:2059-2088 | the X mix |
| `FlightLoop.BringUp.ApplyTrim` | comm_main.c:1797-1820 | trim, slowest spinning pulse and limits of one motor |
| `FlightLoop.BringUp.UpdateControlOutputs` | comm_main.c:2090-2111 | mixed pulses if armed, enabled, valid and ready; idle otherwise |
| `FlightLoop.BringUp.UpdateEscDelay` | comm_main.c:2204-2224 | the delay starts with the first nonzero clock and ends for good after 3000 ms |
| `FlightLoop.BringUp.WriteChannel` | comm_main.c:2226-2266 | the pulse is programmed only if armed and the delay is over, else 1.0 ms |
| `FlightLoop.BringUp.ApplyOutputs` | comm_main.c:2268-2278 | all four channels are programmed so |
| `FlightLoop.BringUp.Dispatch` | comm_main.c:2502-2515 | motors are enabled if and only if the gate is latched and no emergency is, with the reason otherwise |
| `FlightLoop.BringUp.Poll` | comm_main.c:2391-2516 | one poll takes the globals to exactly the state that AfterPoll gives, and programs its pulses |
| `FlightRuns.RunsExist` | comm_main.c:2391-2516 | every list of inputs has a run, from the power-on globals |
| `FlightRuns.RunsAgree` | comm_main.c:2391-2516 | and only one |
| `FlightRuns.SeenLowExactly` | comm_main.c:1834-1902 | a low switch is remembered if and only if some poll showed it and no later poll forgot |
| `FlightRuns.ArmHistory` | comm_main.c:1834-1939 | armed after n polls if and only if there were a valid low, no forgetting up to an arming poll with the switch newly high and throttle at most 1100, and since then only polls with radio valid, sensors ready, switch high and throttle at most 1350 |
| `FlightRuns.LowNeededAfterForgetting` | comm_main.c:1834-1902 | after a poll that forgot, a new valid low comes before any arming |
| `FlightRuns.NextPollCanArmExactly` | comm_main.c:1865-1939 | from any state some next poll can leave the motors armed if and only if they are latched, or a low is remembered and the last switch was low, and the sensors are ready or can be probed before the tick counter wraps |
| `FlightRuns.ReconnectArmsExactly` | comm_main.c:1892-1902 | in every run, the poll after a lost one can arm if and only if some poll showed the switch low and none since, the lost one included, has forgotten it |
| `FlightRuns.ReconnectWithoutNewLowExactly` | comm_main.c:1892-1902 | in every run, after a lost poll there is a continuation that arms without ever showing the switch low again if and only if such a low is remembered |
| `FlightRuns.ReconnectWithoutLow` | comm_main.c:1892-1902 | a run in which the link is lost and comes back and the motors are armed without a new low: the two timeouts use different timestamps |
| `FlightRuns.LinkIsLastHeard` | comm_main.c:2447-2467 | after every poll of every run the link is what the last frame received has made it |
| `FlightRuns.ArmedByTheLastFrame` | comm_main.c:1834-1939 | in every run, armed after a poll only if the last frame received has the switch above 1500 and the throttle at most 1350, its poll is at most 300 ms old and so is its own tick |
| `FlightRuns.RcIsLastHeard` | comm_main.c:2479-2497 | in every run, what the loop believes of the pilot after a poll is valid if and only if his last frame is at most 300 ms old by both clocks and came at a nonzero tick, and then it is roll, pitch, throttle, yaw and switch of that frame |
| `FlightRuns.UnheardExactly` | comm_main.c:1834-1863 | otherwise: without a frame, or with one older than 300 ms by the poll clock, centred sticks with the throttle at rest and the switch down; with one older by its own tick, its sticks without throttle and switch; with one that came at tick 0, all of it, but not valid |
| `FlightRuns.ShownExactly` | comm_main.c:1865-1939 | a poll counts for or against arming if and only if the sensors are ready and the last frame, in time, has the throttle at most 1350 and the switch above 1500, or not above; a low switch stays remembered while that frame is at most 300 ms old by its own tick |
| `Radio.BurstIsFed` | comm_main.c:2447-2467 | the last frame of a burst is the last that the parser accepts from the octets, with the tick at its last octet |
| `Radio.LastHeardIsLast` | comm_main.c:2447-2467 | over a run the last frame of the last burst is the last valid frame in all octets so far |
| `Radio.OneFrameIsRead` | comm_main.c:2447-2467 | an idle loop that reads the encoding of 14 channels gets one frame: roll, pitch, throttle and yaw from channels 0 to 3, the arm switch from channel 5, with the tick at the last octet |
| `Radio.PilotIsHeard` | comm_main.c:2479-2497 | in every run over octets, whenever the loop believes anything of the pilot after a poll, it is channels 0 to 3 of the last valid frame in all octets so far, with the switch up if and only if its channel 5 is above 1500, and both clocks at most 300 ms old |
| `Radio.ArmedByThePilot` | comm_main.c:2447-2497 | in every run over octets, armed after a poll only if the last valid frame in all octets so far has channel 5 above 1500 and channel 2 at most 1350, and neither its poll nor its last octet is more than 300 ms old |
| `Radio.ReadUart` | comm_main.c:2447-2467 | the octet loop over the parser yields that burst and leaves the parser where the octets lead |
| `Radio.PollUart` | comm_main.c:2391-2516 | one poll of the loop over the octets at the UART |
| `FlightRuns.EmergencyLatchExactly` | comm_main.c:1631-1669 | stopped after n polls if and only if some poll found a new slot with a reason and no later poll a new slot without, even while the region is unreadable |
| `FlightRuns.GateIgnoresRegion` | comm_main.c:1865-1939 | runs that differ only in the region pass through the same gates |
| `FlightRuns.ClearingRestartsExactly` | comm_main.c:2499-2515 | when a stop is cleared while the gate was latched, the motors are on in that very poll if and only if it is live |
| `FlightRuns.ClearingRestarts` | comm_main.c:2499-2515 | a run of four polls in which the motors run, a stop for any reason stops them, and its clearing starts them at once |
| `FlightRuns.DelayExactly` | comm_main.c:2204-2224 | the delay is over if and only if 3000 ms passed between the first nonzero clock and a later poll |
| `FlightRuns.PollSafety` | comm_main.c:2226-2278 | after every poll of every run each pulse is in 1.0 to 1.5 ms, and not 1.0 ms only after such an arming, without a stop, and after the delay |
| `FlightRuns.AlwaysDrives` | comm_main.c:2479-2516 | enabled if and only if latched and not stopped; then the pulses are those of radio, sensors and tuning, else idle |
| `FlightRuns.FlightNeverSaturates` | comm_main.c:2059-2088 | in every run, with the throttle above idle and motors enabled, no limit of the mixer is reached |
| `FlightRuns.FlightPulsesInRange` | comm_main.c:2090-2111 | and every programmed pulse is in [min spin, 1470 + trim] |
| `FlightRuns.FlightPulsesExactly` | comm_main.c:2047-2266 | in every run with the motors on, the pulse of each of the four motors in numbers, from the throttle and the three torques, above rest and at rest |
| `FlightRuns.FastTicksNeverSpin` | comm_main.c:2204-2224 | above 1000 ticks a second the delay never ends and no pulse ever leaves 1.0 ms |
| `FlightRuns.DividersAgreeExactly` | comm_main.c:1671-1706 | in every run the three dividers agree if and only if some poll has found a configuration, whatever it asked for |
| `FlightRuns.RefusedDividersStay` | comm_main.c:1671-1706 | in every run without a divider in range, roll, pitch and angle dividers keep their power-on values, and the yaw divider changes from 16 to 12 if and only if a configuration came |
| `Stage3.ActuatorDuoPwm.Update` | rt_core/ActuatorDuoPwm.cpp:13-38 | the loop over the motors gives each its spun-up pulse, or all the safe pulse |
| `Stage3.ActuatorDuoPwm.ApplyTrimAndMinSpin` | rt_core/ActuatorDuoPwm.cpp:67-80 | trim, slowest spinning pulse for a mix above idle, limits; the safe pulse for an unknown motor |
| `Stage3.ActuatorDuoPwm.MapMatchesBringUp` | rt_core/ActuatorDuoPwm.cpp:44-55 | the channel maps agree with each other and with that of the loop |
| `Stage3.IdleExactly` | rt_core/ActuatorDuoPwm.cpp:13-38 | the stage is idle if and only if one of its five conditions fails, and otherwise a motor whose mix is above idle gets at least its slowest spinning pulse |
| `Stage3.FlightRtNodeStage3.Step` | rt_core/FlightRtNodeStage3.cpp:11-28 | the output depends on the input alone |
| `Stage3.Stage3AgreesExactly` | rt_core/FlightRtNodeStage3.cpp:11-28 | after every poll of every run the new stage gives the loop's four pulses if and only if the motors are off, or the throttle is above 1000, or there is no torque; it is safe exactly when the loop is |
| `Stage3.StagesDiffer` | rt_core/FlightRtNodeStage3.cpp:11-28 | a run of two polls after which the new stage gives other pulses than the loop |
| `Stage3.StagesAgreeExactly` | rt_core/ActuatorDuoPwm.cpp:67-80 | the same on collective and torques: `mix > 1000` against `throttle >= 1010` |
| `RtControl.PidAxis.Update` | rt_core/Controller.cpp:9-24 | one update of an axis; nothing for dt <= 0 |
| `RtControl.PidAxis.Reset` | rt_core/Controller.cpp:26-30 | the axis is at rest, its tuning kept |
| `RtControl.RetuningIsBumpless` | rt_core/Controller.cpp:32-36 | new gains change nothing in what an axis answers on target: without error and movement it is the integral, within the limits |
| `RtControl.AxisStaysBounded` | rt_core/Controller.cpp:9-24 | an axis never leaves its output range and its integrator never winds up |
| `RtControl.AxisFollows` | rt_core/Controller.cpp:9-24 | an axis at rest answers an error in its own direction, and no error not at all |
| `RtControl.AlwaysTuned` | rt_core/Controller.cpp:55-75 | over any sequence of configurations, arm state changes and updates, once the axes are at rest only the last configuration shows in them |
| `RtControl.ReconfiguringStartsAfresh` | rt_core/Controller.cpp:63-75 | after a configuration the axes are the same whatever they went through before |
| `RtControl.TorquesFromRest` | rt_core/Controller.cpp:81-100 | from axes at rest a frame that does not turn about roll and pitch gets torques with the signs of wanted minus measured angle, one that leans as wanted gets torques against its rates, and yaw has the sign of wanted minus measured rate |
| `RtControl.TorquesFollowSetpoint` | rt_core/Controller.cpp:81-100 | after any such sequence and a reset the same, at every attitude |
| `RtControl.TorquesFromRestExactly` | rt_core/Controller.cpp:81-100 | the torques of the first step from rest in closed form: a rotation of at most 220 degrees a second for the lean that is missing, and a torque of at most 1 for the rotation that is missing |
| `RtControl.FeedbackOpposes` | rt_core/Controller.cpp:81-100 | for any axes with non-negative gains and dt > 0, leaning further or turning faster never raises the roll, pitch or yaw torque |
| `RtControl.AlwaysPushBack` | rt_core/Controller.cpp:63-75 | in every sequence of configurations, arm state changes and updates the gains stay non-negative, so that always applies |
| `RtControl.TextbookPid` | rt_core/Controller.cpp:9-24 | after any inputs from rest, as long as the integrator is inside its limits, an axis answers kp times the error, ki times the area under all errors so far and kd against the speed of the measurement, within its output range |
| `RtControl.TorquesAreTextbook` | rt_core/Controller.cpp:81-100 | after any control steps from rest in which no integrator meets its limit, the three torques are those of a cascade of such axes with the gains of the configuration and the limits of the source |
| `RtControl.MixReadsBack` | rt_core/Controller.cpp:106-121 | while no motor is clamped, throttle and torques can be read back from the pulses up to rounding |
| `RtControl.DrivenReadsBack` | rt_core/Controller.cpp:99-121 | so the pulses of a control step carry the throttle of the setpoint and the three torques of the cascade, each on the motors that turn the frame that way |
| `RtControl.Controller.constructor` | rt_core/Controller.cpp:38-45 | disarmed, default configuration, axes at rest |
| `RtControl.LimitedExactly` | rt_core/Controller.cpp:47-53 | the setpoint kept is the one setpoint within the limits that is nearest in all four parts to the one given, and is the one given if and only if that is within them |
| `RtControl.Controller.SetArmState` | rt_core/Controller.cpp:55-61 | every change of the arm state resets the axes, no change leaves them |
| `RtControl.Controller.ApplyConfig` | rt_core/Controller.cpp:63-75 | gains within their limits, on all axes, which are reset |
| `RtControl.Controller.Update` | rt_core/Controller.cpp:81-100 | the idle pulses unless armed; armed, the cascade of angle and rate axes and the mix, within [1000, 2000] |
| `RtNode.MapChannelRange` | rt_core/FlightRtNode.cpp:14-18 | a channel is mapped into its range, and its ends onto the ends |
| `RtNode.SticksExactly` | rt_core/FlightRtNode.cpp:284-290 | the setpoint of the sticks in numbers: 0.06 degrees of roll and pitch, 0.3 degrees a second of yaw and a thousandth of throttle for each microsecond, up to the ends |
| `RtNode.SticksAreNeverLimited` | rt_core/FlightRtNode.cpp:284-291 | what the sticks ask for is never limited by the controller; full sticks ask for 30 degrees, full throttle and 150 degrees a second |
| `RtNode.ArmedExactly` | rt_core/FlightRtNode.cpp:232-292 | a cycle ends armed if and only if the switch is up, nothing forces failsafe, and the mailbox asks, or it was armed, or it was disarmed with low throttle |
| `RtNode.HighThrottleArmsExactly` | rt_core/FlightRtNode.cpp:238-244 | above 1100 us a cycle arms if and only if the mailbox asks for it |
| `RtNode.ArmsAtFullThrottle` | rt_core/FlightRtNode.cpp:238-244 | a run, from the octets of one frame, that arms at full throttle because the mailbox asks for it, against the documented condition |
| `RtNode.WithoutMailboxArmsLow` | rt_core/FlightRtNode.cpp:266-282 | while the mailbox asks for failsafe or nothing, arming needs a disarmed node, the switch up and the throttle low |
| `RtNode.LeavesFailsafeExactly` | rt_core/FlightRtNode.cpp:232-297 | failsafe is left if and only if the mailbox gives another arm state and nothing in the cycle fails again |
| `RtNode.ArmStateExactly` | rt_core/FlightRtNode.cpp:145-174 | the arm state after a cycle in full: failsafe by emergency, failsafe switch, failed sample or timeout; otherwise what the mailbox asked for or what it was, moved by the switch and the throttle |
| `RtNode.SetpointExactly` | rt_core/FlightRtNode.cpp:284-291 | the setpoint after a cycle is that of the sticks unless the receiver is in failsafe; only then that of the mailbox, within its limits, and then the node is in failsafe |
| `RtNode.AlwaysHonest` | rt_core/Receiver.cpp:119-133 | in every cycle the receiver reports a lost link as failsafe, so the lemmas on single cycles apply |
| `RtNode.FailsafeHolds` | rt_core/FlightRtNode.cpp:146-174 | in every run without such a slot failsafe stays, whatever the receiver does |
| `RtNode.ArmedIsAttended` | rt_core/FlightRtNode.cpp:163-174 | a cycle that ends armed had the switch up, no failsafe, the link, the setpoint and, once there was one, the heartbeat in time |
| `RtNode.AlwaysHeard` | rt_core/FlightRtNode.cpp:155-161 | in every run the receiver knows the last frame of all octets so far, and its time |
| `RtNode.ArmedByThePilot` | rt_core/FlightRtNode.cpp:149-174 | in every run, if a cycle ends armed, the last valid frame in all octets so far has the arm channel above 1500 and the failsafe channel at most 1500, its last octet came at most 120 ms before the safety check, and the setpoint is that of its shaped sticks |
| `RtNode.ArmedWithHeartbeat` | rt_core/FlightRtNode.cpp:163-174 | in every run, if a cycle ends armed, the last heartbeat that any command brought came at most 500 ms before the safety check |
| `RtNode.LastConfigIsInForce` | rt_core/FlightRtNode.cpp:232-264 | in every run the configuration in force, at controller and receiver, is the last that any command brought, within its limits |
| `RtNode.FirstFrameArmsExactly` | rt_core/FlightRtNode.cpp:266-292 | the first frame of a run arms if and only if its arm channel is high, its failsafe channel low, its shaped throttle at most 1100, frame and setpoint in time, and no due sample fails |
| `RtNode.AlwaysKept` | rt_core/FlightRtNode.cpp:145-229 | in every run, after every cycle: idle motors unless armed, and axes that at rest show nothing but the configuration in force, which is within its limits |
| `RtNode.BegunIsKept` | rt_core/FlightRtNode.cpp:99-121 | so it is from the start of every run, whatever the run before has left: disarmed, idle, under the default configuration, with no heartbeat |
| `RtNode.RunsFollowRuns` | rt_core/FlightRtNode.cpp:123-230 | a run of any length ends disarmed with idle motors, and the next run starts from there as it should |
| `RtNode.ArmedStepDrives` | rt_core/FlightRtNode.cpp:188-203 | in every run, a due step of a cycle that ends armed sends the motors exactly what the cascade answers to the setpoint at the attitude estimated from the sample, from the axes of the cycle before if the node stayed armed and got no configuration, and otherwise from axes at rest under the configuration in force |
| `RtNode.ArmedRunIsCascade` | rt_core/FlightRtNode.cpp:145-229 | in every run, from the cycle that arms the node on, its axes are those of one cascade that began at rest and was given every due step since, with the setpoint, attitude and interval of its own cycle |
| `RtNode.FlightIsTextbook` | rt_core/FlightRtNode.cpp:188-203 | so, as long as no integrator meets its limit, the pulses of every later step are the mix of the torques that textbook PID axes with these gains answer to all the steps since arming |
| `RtNode.FlightHappens` | rt_core/FlightRtNode.cpp:145-229 | there are such runs, from the octets on: one frame arms the node and it hovers, with no limit met |
| `RtNode.WithoutStepPulsesStay` | rt_core/FlightRtNode.cpp:145-229 | in every run a cycle that ends armed without a due step keeps pulses and estimates, unless the node was not armed on the way; then the motors are idle |
| `RtNode.FirstStepFollowsSticks` | rt_core/FlightRtNode.cpp:188-203 | the first step after arming, on a frame that does not turn about roll and pitch, has torques with the signs of what the sticks of the last frame ask for minus what is measured |
| `RtNode.EstimatedExactly` | rt_core/FlightRtNode.cpp:188-203 | a frame that has turned as its gyros say, less the biases, is estimated where it is, and of the heading error the magnetometer takes away exactly its part |
| `RtNode.TickKeepsPhase` | rt_core/FlightRtNode.cpp:176-188 | a control step keeps the due time on the grid boot + 2500k, ahead of now by at most 2500, the interval positive, the sum exact, and 2500 times the number of steps within the time since boot |
| `RtNode.CatchUp` | rt_core/FlightRtNode.cpp:184-186 | the do-while loop ends with the first grid point ahead |
| `RtNode.AlwaysInPhase` | rt_core/FlightRtNode.cpp:141-188 | so it is after every cycle, for every clock |
| `RtNode.TimeIsConserved` | rt_core/FlightRtNode.cpp:176-188 | in every run the intervals given to filters and axes, in seconds, add up to the time from the start to the last step, in microseconds |
| `RtNode.FlightRtNode.EnterFailsafe` | rt_core/FlightRtNode.cpp:294-297 | failsafe, motors idle |
| `RtNode.FlightRtNode.ApplyCommand` | rt_core/FlightRtNode.cpp:232-264 | an emergency alone, or arm state, setpoint, heartbeat and configuration; axes and pulses with them; not armed implies idle motors |
| `RtNode.FlightRtNode.ApplyReceiver` | rt_core/FlightRtNode.cpp:266-292 | failsafe switch, arm switch and sticks; axes and pulses with them; not armed implies idle motors |
| `RtNode.FlightRtNode.CheckSafety` | rt_core/FlightRtNode.cpp:163-174 | an armed node that is overdue, or whose receiver saw its last frame more than 120 ms ago or never, fails; not armed implies idle motors |
| `RtNode.FlightRtNode.Drive` | rt_core/FlightRtNode.cpp:202-203 | armed, the motors get what the cascade answers and the axes are advanced; otherwise idle |
| `RtNode.FlightRtNode.Act` | rt_core/FlightRtNode.cpp:188-203 | estimate, control, drive: filters, axes and pulses after the step |
| `RtNode.FlightRtNode.Control` | rt_core/FlightRtNode.cpp:188-203 | a failed sample is failsafe with idle motors; otherwise the step is made, with a positive interval |
| `RtNode.FlightRtNode.Take` | rt_core/FlightRtNode.cpp:149-158 | command and receiver: the node, the receiver and the sample are what the octets and the settings of the command give |
| `RtNode.FlightRtNode.Listen` | rt_core/FlightRtNode.cpp:149-174 | the cycle up to its control step, from the octets on |
| `RtNode.FlightRtNode.RunCycle` | rt_core/FlightRtNode.cpp:145-229 | one cycle takes node, motors, filters, receiver and schedule to exactly the state that Stepped gives |
| `RtNode.FlightRtNode.Init` | rt_core/FlightRtNode.cpp:99-121 | disarmed, idle, default configuration on both sides, axes at rest, fresh timestamps, the receiver as if it had read nothing |
| `RtNode.FlightRtNode.Run` | rt_core/FlightRtNode.cpp:123-230 | a run takes node, motors, filters, receiver and schedule where its octets, commands, samples and clocks lead, with the invariant after each cycle, and then it ends disarmed and idle |
| `ConfigSync.TelemetryNode.SendConfig` | linux_core/MailboxTransport.cpp:192-197 | the slot is overwritten whatever the outcome; success needs flush and acknowledgement |
| `ConfigSync.TelemetryNode.PushConfig` | linux_core/TelemetryNode.cpp:265-299 | sent if and only if new or changed by more than 1e-6, clamped, under the next number; a failed send changes the slot and nothing else |
| `ConfigSync.HandedOverExactly` | linux_core/TelemetryNode.cpp:265-299 | a push is handed over if and only if none has succeeded yet, or one of its five gains, brought within its limits, is more than 1e-6 off the active one, or the deadzone differs |
| `ConfigSync.PushExactly` | linux_core/TelemetryNode.cpp:284-298 | what is handed over is what was asked for, within its limits, under number 1 or that of the active configuration the first time and under the next number from then on; Linux holds it active if and only if the send succeeds; otherwise nothing changes |
| `ConfigSync.RtLimitsAreIdentity` | rt_core/Controller.cpp:63-75 | the limits of the RT side change nothing within the limits of the Linux side |
| `ConfigSync.PushKeepsStep` | linux_core/TelemetryNode.cpp:265-299 | a successful push goes out under a number larger than all before |
| `ConfigSync.PollTakesConfig` | rt_core/RtosCmdquIsrTransport.cpp:185-196 | a poll without a new emergency takes the slot if and only if its number is new |
| `ConfigSync.EmergencyPollWaits` | rt_core/RtosCmdquIsrTransport.cpp:47-52 | a poll with a new emergency leaves it for the next |
| `ConfigSync.ConfigAgreement` | rt_core/FlightRtNode.cpp:260-263 | after any history without a failed send, the next poll without a new emergency makes the controller's configuration equal Linux's, field by field, and the receiver's settings with it |
| `ConfigSync.RequestedIsFlown` | linux_core/TelemetryNode.cpp:265-299 | after any history without a failed send, a push whose send does not fail, handed over or not, and a poll without a new emergency leave controller and receiver with each of the five requested gains, within its limits, to 1e-6, and with the requested deadzone |
| `ConfigSync.ChangedConfigIsTaken` | linux_core/TelemetryNode.cpp:265-299 | every changed configuration is sent under the next number and taken |
| `ConfigSync.AgreementAfterPushExactly` | linux_core/TelemetryNode.cpp:289-293 | after a history without a failed send, one more push handed over and a poll leave both sides in agreement if and only if the send succeeded or handed over what is active anyway; the second only before the first success |
| `ConfigSync.RetryIsTurnedDown` | linux_core/TelemetryNode.cpp:284-293 | a retry after a failed send that was taken, the boot push included, goes out under the same number, is turned down, and both sides agree if and only if it repeats the failed configuration |
| `ConfigSync.BootRetryIsTurnedDown` | linux_core/TelemetryNode.cpp:76-76 | the run from power-on: the boot push fails and is flown, the next push succeeds under number 1 and is not |
| `ConfigSync.AlwaysKnown` | linux_core/TelemetryNode.cpp:265-299 | after every history, failed sends included, numbers never go back and the RT side flies what it took under the number it has seen |
| `ConfigSync.AgreementExactly` | linux_core/TelemetryNode.cpp:265-299 | after every history, failed sends included, the next poll without a new emergency leaves both sides in agreement if and only if what Linux holds active is what some poll took under the number of the slot, or, where none has, what was last published |
| `ConfigSync.AgreementOnceSentExactly` | linux_core/TelemetryNode.cpp:265-299 | once a send has succeeded: if and only if what was last published is active and no poll had taken anything else under its number |
| `ConfigSync.AgreeThoughOverwritten` | linux_core/TelemetryNode.cpp:284-293 | before any success that is not exact: a history after which both sides agree though what was last published is not active |
| `ConfigSync.BringUpRefusesLinuxDividers` | comm_main.c:1688-1704 | no divider that pushConfig can send is in range for the bring-up loop: all three rate dividers become the roll divider, the angle divider stays |
| `ConfigBytes.MixedGainsAreSmall` | linux_core/TelemetryNode.cpp:265-272 | however the bytes of configurations within the limits are mixed, the rate gain is a float below 2 and the angle gain one below 32 |
| `ConfigSync.SlotIsMixed` | linux_core/MailboxTransport.cpp:89-96 | whatever the writer is at, every byte of the configuration slot is from some configuration that was sent, or still clear |
| `ConfigSync.LinuxNeverTunesBringUp` | comm_main.c:1671-1706 | in every run of the bring-up loop under Linux, half-copied configurations included, the only divider that ever changes is the yaw divider, once, from 16 to 12, at the first configuration |

## Left out

- Hardware: bit-banged I2C, UART and PWM registers, PWM period and readback, mailbox registers, spinlocks, interrupt wiring, FreeRTOS tasks. What they deliver is an arbitrary input.
- Memory ordering and cache effects between the cores: writes of a slot become visible in program order, those of the payload byte by byte. The stores and loads of CRC and number are one step each, although the packed slots do not align them.
- The numbers in `SharedSlot` and `SlotRace` count up by one. A setpoint source that chooses its own numbers, and a number used again after a failed send, are in `MailboxTransport` and `ConfigSync` only.
- Opening and allocating the shared region, and a Linux restart while the region keeps its contents.
- Floating point: rounding, NaN (which the limits of pushConfig would let through) and trigonometry. Reals stand for floats; accelerometer angles and magnetic heading are arbitrary values.
- Wrap-around of 32-bit slot numbers, of the frame counter and of 64-bit microsecond clocks (the tick counters of the bring-up loop do wrap here).
- The layout in memory of setpoint and heartbeat payloads, apart from their sizes and the number they end with, is a parameter; that of the configuration is in `ConfigBytes`, and a parameter elsewhere.
- The state that the bring-up loop keeps for printing and debugging, its RT report, and the separate correction terms of its PID stage.
- Gyro calibration, level trim and sensor probing in the bring-up loop: the sensor readings after a probe are arbitrary within their ranges. Its `FreeRTOSConfig.h` is not part of this model; the tick rate is a parameter.
- The loopback transport, the simulated backends, the logging backend, and the RT report of the formal node.
- `max_cycles == 0`, the endless run of the formal node: every finite number of cycles is covered.
- A transport, receiver or actuator without a backend, for which the formal node does not start.
- Command line and INI parsing of the Linux node, its timers, and its failsafe message on loss of the RC source.
- Records for related globals: the globals of `FlightLoop.BringUp` are grouped into records that are updated in place, and the axes of the controller carry their bounds in their type.
- RtosTransport.Transport.Poll: takes the region as it is during the poll; changes of a slot during its check are the subject of `SlotRace`.
- FlightLoop.BringUp.InitBackend: programs 1.0 ms on all channels once, which the same poll overwrites, so its contract says only that the backend is ready.
