# gov-clock DOP component runtime, modelled in Dafny

This project models the component runtime of gov-clock, written in C. It has
four time components: alarm, clock, stopwatch and timer. Each component is one
record that holds:

- metadata: its identifier, name, version, type, lifecycle state and governance gate;
- the data union, of which only the member named by the type is live;
- a CRC-32 checksum over the bytes of that union.

The model covers these parts of the runtime:

- **Core.** Creation with per-type initial data, the gate (OPEN, CLOSED or ISOLATED; "accessible" means OPEN), the gate-guarded update step, the checksum, and the status strings.
- **Component operations.** The flag-updating operations of each component, and the clock's text formatter.
- **Topology.** The peer table of a topology node.
- **Taxonomy.** The decision tables of the taxonomy test framework.
- **Adapter.** The adapter between function-style and object-style interfaces.

The Dafny modules are:

| module | file | models |
|---|---|---|
| `Crc32` | crc32.dfy | reflected CRC-32 of IEEE 802.3 clause 3.2.9, as pure functions |
| `Decimal` | decimal.dfy | `%u` / `%0Nu` rendering and the reading back of digit strings |
| `DopTypes` | dop_types.dfy | fixed-width integers, status codes, enums, records, union byte image, the `Component` class |
| `DopCore` | dop_core.dfy | src/obinexus_dop_core.c (the same code as obinexus_dop_c_implementation.c) |
| `DopStopwatch`, `DopTimer`, `DopAlarm`, `DopClock` | stopwatch.dfy, timer.dfy, alarm.dfy, clock.dfy | src/components/*.c |
| `DopTopology` | topology.dfy | src/dop_topology.c |
| `Taxonomy` | taxonomy.dfy | the implementation part of include/taxonomy_testing.h |
| `DopAdapter` | adapter.dfy | src/dop_adapter.c |

**How the C code maps onto Dafny**

- **The component.** It is a class with the fields `metadata`, `data` and `checksum`. The C functions take a `dop_component_t*`; here they take a `Component?`, so NULL is an ordinary input. Each whole call, including the checks the C code makes before taking the lock, is one atomic step.
- **Per-component state machines.** Each component module has a function `Step(record, op)` that gives the effect of one operation on that component's record, and `Run`, which applies a sequence of operations. Every mutator method is proved to leave `Step` of the old record behind, with the metadata unchanged and a freshly recomputed checksum. The component invariants are proved about `Run` by induction:
  - stopwatch: paused ⇒ running;
  - timer: ¬(running ∧ expired);
  - alarm: triggered ⇒ armed.
- **The checksum.** The loop is proved equal to `Crc32.Checksum` of the union's bytes. Its standard check value 0xCBF43926 is proved as well.

## Model

| member | source | states |
|---|---|---|
| Crc32.FeedConcat | src/obinexus_dop_core.c:38-47 | feeding a concatenation is feeding the parts in turn, which is what lets the byte loop keep a running register |
| Crc32.FeedSnoc | src/obinexus_dop_core.c:38-47 | one more byte at the end is one more xor-and-eight-shifts step |
| Crc32.EmptyChecksum | src/obinexus_dop_core.c:34-49 | the CRC of no bytes is the complement of the all-ones preset, i.e. 0 |
| Crc32.CheckValue | src/obinexus_dop_core.c:34-49 | the CRC of "123456789" is 0xCBF43926, the check value of this CRC |
| Decimal.DigitChar | src/components/clock.c:42 | a digit value renders as a digit character |
| Decimal.DigitValue | src/components/clock.c:42 | reading a digit character gives a value below 10 that renders back to it |
| Decimal.Pow10 | src/components/clock.c:42 | powers of ten are positive |
| Decimal.Digits | src/components/clock.c:57 | `%u` gives at least one character, all digits |
| Decimal.Zeros | src/components/clock.c:42 | the padding is `k` zero digits |
| Decimal.Padded | src/components/clock.c:42 | `%0wu` gives only digits |
| Decimal.ValueOfDigits | src/components/clock.c:57 | reading back the `%u` rendering of n gives n |
| Decimal.ValueIgnoresLeadingZeros | src/components/clock.c:42 | leading zeros do not change the value read back |
| Decimal.ZerosValue | src/components/clock.c:42 | a run of padding zeros reads back as 0 |
| Decimal.ValueOfPadded | src/components/clock.c:42 | reading back the `%0wu` rendering of n gives n, for every width |
| Decimal.DigitsBound | src/components/clock.c:42 | a number below 10^k has at most k digits |
| Decimal.PaddedWidth | src/components/clock.c:42 | below 10^w the `%0wu` rendering is exactly w characters |
| Decimal.DigitsOfU64 | src/obinexus_dop_core.c:58-59 | a 64-bit unsigned number prints in at most 20 digits |
| Decimal.DigitsOfSmall | src/components/clock.c:57 | below 100, one digit under 10 and two otherwise |
| DopTypes.Wrap32 | src/components/stopwatch.c:74 | 32-bit unsigned wrap-around: identity in range, minus 2^32 just above it |
| DopTypes.Wrap64 | src/obinexus_dop_core.c:83 | 64-bit unsigned wrap-around: identity in range, plus 2^64 for a negative difference |
| DopTypes.AsUnsigned32 | src/components/clock.c:11 | storing a signed 32-bit value into an unsigned field keeps non-negative values and adds 2^32 to negative ones |
| DopTypes.AsSigned32 | src/components/clock.c:11 | reading the unsigned field back as signed is undone by storing it again |
| DopTypes.SignedRoundTrip | src/components/clock.c:11 | the store into the unsigned field loses nothing |
| DopTypes.TypeCode | include/obinexus_dop_core.h:14-20 | each component type has a code in ALARM..TIMER |
| DopTypes.TypeOfCode | include/obinexus_dop_core.h:14-20 | a code in ALARM..TIMER names the type with that code |
| DopTypes.LittleEndian | include/obinexus_dop_core.h:38-45 | an n-byte field is n bytes |
| DopTypes.ValueOfBytes | include/obinexus_dop_core.h:38-45 | an n-byte field stands for a number below 256^n |
| DopTypes.LittleEndianReadback | include/obinexus_dop_core.h:38-45 | reading an n-byte field back gives the value modulo 256^n, so fields that fit are stored without loss |
| DopTypes.ZeroBytes | include/obinexus_dop_core.h:93-99 | padding of n bytes is n bytes |
| DopTypes.TimeBytes | include/obinexus_dop_core.h:38-45 | a time record occupies 32 bytes |
| DopTypes.MemberBytes | include/obinexus_dop_core.h:47-78 | no member of the union is larger than the union |
| DopTypes.DataBytes | src/obinexus_dop_core.c:35-36 | the checksum reads exactly sizeof the union, 104 bytes |
| DopTypes.Component.Zeroed | src/obinexus_dop_core.c:54 | the zero-filled allocation |
| DopCore.ShiftInByte | src/obinexus_dop_core.c:39-46 | xor-ing a byte in and shifting eight times with the conditional polynomial is the specification's `AddByte` |
| DopCore.ChecksumOfBytes | src/obinexus_dop_core.c:34-49 | the accumulator loop computes the CRC-32 of the bytes |
| DopCore.ChecksumCalculate | src/obinexus_dop_core.c:30-50 | 0 for NULL; otherwise the CRC-32 of the data union's bytes, so the metadata does not enter |
| DopCore.StoreData | src/components/stopwatch.c:15 | the data is replaced, the metadata kept, and the stored checksum again matches the data |
| DopCore.ComponentId | src/obinexus_dop_core.c:58-59 | "comp_<type>_<seconds>" is at most 63 characters, so the bounded print never cuts it |
| DopCore.ComponentName | src/obinexus_dop_core.c:61-73 | the per-type name ends in " Component" and fits the 128-byte name buffer |
| DopCore.InitialData | src/obinexus_dop_core.c:89-112 | the initial data is the union member of the created type |
| DopCore.InitialDataFacts | src/obinexus_dop_core.c:89-112 | clock running, offset 0, 24-hour; alarm unarmed, untriggered, 300000 ms snooze; stopwatch stopped, unpaused, no laps; timer not running, not expired, no auto-restart |
| DopCore.CreateComponent | src/obinexus_dop_core.c:53-116 | NULL iff the type code is outside ALARM..TIMER; otherwise READY, CLOSED, "1.0.0", per-type name and data, last update equal to creation (seconds×1000, 64-bit), checksum matching the data |
| DopCore.GateIsAccessible | src/obinexus_dop_core.c:190-193 | accessible iff non-NULL and the gate is OPEN |
| DopCore.GateOpen | src/obinexus_dop_core.c:170-178 | INVALID_PARAMETER for NULL; otherwise the gate becomes OPEN, nothing else changes, SUCCESS |
| DopCore.GateClose | src/obinexus_dop_core.c:180-188 | INVALID_PARAMETER for NULL; otherwise the gate becomes CLOSED, nothing else changes, SUCCESS |
| DopCore.Advance | src/obinexus_dop_core.c:127-160 | the update step keeps the union member of the component's type |
| DopCore.AdvanceClock | src/obinexus_dop_core.c:128-130 | the clock takes the new time and nothing else changes |
| DopCore.AdvanceAlarm | src/obinexus_dop_core.c:132-138 | the alarm takes the new time; armed flag, alarm time and snooze are kept; a trigger is never cleared |
| DopCore.AdvanceStopwatch | src/obinexus_dop_core.c:140-149 | flags, start time and laps are kept; a stopped or paused stopwatch is untouched |
| DopCore.AdvanceTimer | src/obinexus_dop_core.c:151-159 | start time, duration and auto-restart are kept; a stopped timer is untouched; any change is expiry, ending expired and stopped |
| DopCore.UpdateComponent | src/obinexus_dop_core.c:118-167 | INVALID_PARAMETER and no change unless accessible; otherwise the per-type step, last update = now, checksum recomputed, SUCCESS |
| DopCore.AdvanceTimerExpiry | src/obinexus_dop_core.c:151-159 | a running timer whose elapsed time reaches its duration ends expired and stopped; any other timer is untouched |
| DopCore.AdvanceAlarmTrigger | src/obinexus_dop_core.c:132-138 | the trigger is set iff it was set or the alarm is armed and the time is equal; it is never cleared here |
| DopCore.ErrorToString | src/obinexus_dop_core.c:196-208 | "Unknown error" exactly for codes outside the eight status codes |
| DopCore.ErrorStringsDistinct | src/obinexus_dop_core.c:196-208 | different status codes have different texts |
| DopStopwatch.InitialConsistent | src/obinexus_dop_core.c:102-106 | a new stopwatch is not paused unless running |
| DopStopwatch.Step | src/components/stopwatch.c:4-80 | each operation and the update step keeps paused ⇒ running; only start and reset can change a stopped stopwatch's running flag or laps |
| DopStopwatch.RunKeepsConsistent | src/components/stopwatch.c:10-14 | every sequence of stopwatch operations and updates keeps paused ⇒ running |
| DopStopwatch.StartFacts | src/components/stopwatch.c:10-14 | start on a stopped stopwatch runs it unpaused from now; on a running one it changes nothing, so a second start is a no-op |
| DopStopwatch.StopFacts | src/components/stopwatch.c:27-28 | stop clears running and paused and keeps elapsed time and laps |
| DopStopwatch.PauseFacts | src/components/stopwatch.c:41-43 | pause sets paused iff running, and keeps the running flag |
| DopStopwatch.ResetFacts | src/components/stopwatch.c:56-60 | reset clears running, paused and laps, zeroes the elapsed time, and is idempotent |
| DopStopwatch.LapFacts | src/components/stopwatch.c:73-75 | lap adds exactly one iff running and not paused, else changes nothing |
| DopStopwatch.StoppedCountsNoLaps | src/components/stopwatch.c:67-80 | without start or reset, a stopped stopwatch stays stopped and keeps its lap count |
| DopStopwatch.StopwatchStart | src/components/stopwatch.c:4-19 | INVALID_PARAMETER and no change for NULL or a non-stopwatch; otherwise the start step, checksum recomputed, SUCCESS, gate not consulted |
| DopStopwatch.StopwatchStop | src/components/stopwatch.c:21-33 | as above, with the stop step |
| DopStopwatch.StopwatchPause | src/components/stopwatch.c:35-48 | as above, with the pause step |
| DopStopwatch.StopwatchReset | src/components/stopwatch.c:50-65 | as above, with the reset step |
| DopStopwatch.StopwatchLap | src/components/stopwatch.c:67-80 | as above, with the lap step (32-bit counter) |
| DopTimer.InitialConsistent | src/obinexus_dop_core.c:107-111 | a new timer is not running and expired at once |
| DopTimer.Step | src/components/timer.c:3-58 | each operation and the update step keeps ¬(running ∧ expired); only the update step can set the expired flag |
| DopTimer.RunKeepsConsistent | src/components/timer.c:22-24 | every sequence of timer operations and updates keeps ¬(running ∧ expired) |
| DopTimer.SetDurationFacts | src/components/timer.c:9 | set_duration writes duration.timestamp_ms only; running, expired, start time unchanged |
| DopTimer.StartFacts | src/components/timer.c:22-24 | start: running, not expired, start time = now |
| DopTimer.StopFacts | src/components/timer.c:37 | stop clears running and keeps expired |
| DopTimer.ResetFacts | src/components/timer.c:50-53 | reset clears running and expired and sets start time = now |
| DopTimer.ExpiresOnlyByUpdate | src/components/timer.c:1-67 | no timer operation sets the expired flag; only the update step does |
| DopTimer.StartedTimerNotExpired | src/components/timer.c:22-24 | after start, a timer reports no expiry until an update |
| DopTimer.TimerSetDuration | src/components/timer.c:3-14 | INVALID_PARAMETER and no change for NULL or a non-timer; otherwise the set-duration step, checksum recomputed, SUCCESS |
| DopTimer.TimerStart | src/components/timer.c:16-29 | as above, with the start step |
| DopTimer.TimerStop | src/components/timer.c:31-42 | as above, with the stop step |
| DopTimer.TimerReset | src/components/timer.c:44-58 | as above, with the reset step |
| DopTimer.TimerIsExpired | src/components/timer.c:60-66 | false for NULL or a non-timer, otherwise the stored flag; reads only |
| DopAlarm.InitialConsistent | src/obinexus_dop_core.c:96-101 | a new alarm is not triggered unless armed |
| DopAlarm.Step | src/components/alarm.c:4-68 | each operation and the update step keeps triggered ⇒ armed; only arm can set the armed flag |
| DopAlarm.RunKeepsConsistent | src/components/alarm.c:27 | every sequence of alarm operations and updates keeps triggered ⇒ armed |
| DopAlarm.ArmFacts | src/components/alarm.c:27 | arm sets armed and keeps triggered |
| DopAlarm.DisarmFacts | src/components/alarm.c:40-41 | disarm clears armed and triggered |
| DopAlarm.SnoozeFacts | src/components/alarm.c:62-63 | snooze stores the duration, clears triggered, keeps armed |
| DopAlarm.SetTimeFacts | src/components/alarm.c:14 | set_time stores the alarm time and keeps both flags |
| DopAlarm.DisarmedStaysSilent | src/components/alarm.c:34-46 | a disarmed alarm is never triggered until armed again |
| DopAlarm.AlarmSetTime | src/components/alarm.c:4-19 | INVALID_PARAMETER for NULL or a non-alarm, checked before the gate; GATE_CLOSED and no change unless OPEN; otherwise the alarm time is stored, checksum recomputed, SUCCESS |
| DopAlarm.AlarmArm | src/components/alarm.c:21-32 | INVALID_PARAMETER and no change for NULL or a non-alarm; otherwise the arm step whatever the gate, SUCCESS |
| DopAlarm.AlarmDisarm | src/components/alarm.c:34-46 | as above, with the disarm step |
| DopAlarm.AlarmIsTriggered | src/components/alarm.c:48-54 | false for NULL or a non-alarm, otherwise the stored flag; reads only |
| DopAlarm.AlarmSnooze | src/components/alarm.c:56-68 | as for arm, with the snooze step |
| DopClock.Step | src/components/clock.c:5-29 | the setters leave the current time and the running flag alone; the update step replaces only the current time |
| DopClock.SetTimezoneFacts | src/components/clock.c:11 | the stored offset read back as signed is the offset given; nothing else changes |
| DopClock.MinusFiveWraps | src/components/clock.c:11 | an offset of -5 is stored as 4294967291 |
| DopClock.SetFormatFacts | src/components/clock.c:24 | set_format changes only the format flag |
| DopClock.TwelveHour | src/components/clock.c:45-55 | PM iff hour ≥ 12; for hours 0..23 the dial hour is in 1..12 and maps back to the hour |
| DopClock.TwelveHourInjective | src/components/clock.c:45-55 | different hours of the day give different dial readings |
| DopClock.Bounded | src/components/clock.c:42 | the bounded print keeps a prefix of at most 31 characters, and all of a shorter text |
| DopClock.Tail | src/components/clock.c:42 | the shared tail starts with ':' and is at least ten characters |
| DopClock.Field | src/components/clock.c:42 | one `%0wu` field after its separator: the separator first, then at least w characters |
| DopClock.FieldLayout | src/components/clock.c:42 | below 10^w a field is its separator and w digits reading back as the number |
| DopClock.Render24 | src/components/clock.c:41-43 | the 24-hour text starts with two digits and is at least twelve characters |
| DopClock.Render12 | src/components/clock.c:45-58 | the 12-hour text starts with a digit and ends in " PM" exactly for hours from 12, otherwise " AM" |
| DopClock.Format | src/components/clock.c:36-62 | under 32 characters, and a prefix of the rendering in the stored format |
| DopClock.PaddedField | src/components/clock.c:42 | a field printed with `%0wu` below 10^w is w digits reading back as the value |
| DopClock.TailLayout | src/components/clock.c:42 | ":MM:SS.mmm" is ten characters whose fields read back as minutes, seconds, milliseconds |
| DopClock.Render24Layout | src/components/clock.c:41-43 | the 24-hour text is "HH:MM:SS.mmm", 12 characters, every field reading back as its value |
| DopClock.Render12Layout | src/components/clock.c:45-58 | the 12-hour text is the unpadded dial hour, the tail, " AM"/" PM"; dial hour and suffix give back the hour |
| DopClock.DisplayableNotTruncated | src/components/clock.c:31-62 | for a displayable time, neither rendering is cut by the 32-byte buffer |
| DopClock.FormatIgnoresOffset | src/components/clock.c:31-62 | the formatter does not apply the timezone offset |
| DopClock.ClockSetTimezone | src/components/clock.c:5-16 | INVALID_PARAMETER and no change for NULL or a non-clock; otherwise the offset is stored wrapped, checksum recomputed, SUCCESS |
| DopClock.ClockSetFormat | src/components/clock.c:18-29 | as above, with the format flag |
| DopClock.ClockFormatTime | src/components/clock.c:31-62 | NULL iff NULL or a non-clock; otherwise the rendering in the stored format, under 32 characters; reads only |
| DopTopology.TopologyNode.Peers | include/obinexus_dop_core.h:125-132 | the peers added so far number exactly the peer count |
| DopTopology.TopologyNode.constructor | src/dop_topology.c:23-29 | a zero-filled node with the id and component, no peers, fault tolerant |
| DopTopology.BoundedId | src/dop_topology.c:26 | the copied id is a prefix of at most 63 characters, and all of a shorter id |
| DopTopology.CreateNode | src/dop_topology.c:20-32 | NULL iff the id or component is missing; otherwise a fresh node with no peers, fault tolerant, the component, the bounded id |
| DopTopology.AddPeer | src/dop_topology.c:34-43 | INVALID_PARAMETER and no change for a missing node or peer or four peers; otherwise the peer is appended in the next slot; the count stays ≤ 4 |
| DopTopology.AddPeerTwice | src/dop_topology.c:34-43 | adding the same peer twice takes two slots: there is no duplicate check |
| DopTopology.BuildTopology.constructor | include/obinexus_dop_core.h:135-142 | an empty topology with sixteen node slots |
| DopTopology.ProbeTarget | src/dop_topology.c:66-68 | the probe acts exactly when there is more than one node and node 0 exists, and then on node 0's component |
| DopTopology.TestFaultTolerance | src/dop_topology.c:62-80 | INVALID_PARAMETER for NULL, otherwise SUCCESS; node 0's component ends with an OPEN gate, data and checksum unchanged |
| Taxonomy.ModeFlagsFor | include/taxonomy_testing.h:100-115 | every level has PREFLIGHT; MEMORY_ONLY iff isolated; INTEGRATION iff closed or open; PRODUCTION iff open; never STRESS; no bit outside the five named flags; 0 for an unknown level; so the isolated level gets exactly PREFLIGHT and MEMORY_ONLY, the closed level PREFLIGHT and INTEGRATION, the open level PREFLIGHT, INTEGRATION and PRODUCTION |
| Taxonomy.TagFor | include/taxonomy_testing.h:100-115 | the tag is the level's name, empty for an unknown level |
| Taxonomy.LevelAccepts | include/taxonomy_testing.h:183-206 | isolated accepts ISOLATED or CLOSED, closed anything but ISOLATED, open only OPEN, an unknown level nothing |
| Taxonomy.ValidateIsolationLevel | include/taxonomy_testing.h:177-210 | INVALID_PARAMETER for NULL; SUCCESS iff the level accepts the gate; INVALID_STATE otherwise |
| Taxonomy.LevelsCoverGates | include/taxonomy_testing.h:183-206 | every gate satisfies exactly one of isolated and open, and at least one of isolated and closed |
| Taxonomy.OpenLevelIsAccessibility | include/taxonomy_testing.h:199-204 | the open level accepts exactly the accessible gate |
| Taxonomy.LevelsOfClosedAndOpenGates | include/taxonomy_testing.h:183-206 | a CLOSED gate passes isolated and closed; an OPEN gate passes closed and open |
| Taxonomy.LevelToString | include/taxonomy_testing.h:329-336 | "unknown" exactly outside the three levels |
| Taxonomy.ParseLevel | include/taxonomy_testing.h:329-336 | a recognised name stands for a valid level |
| Taxonomy.LevelNameRoundTrip | include/taxonomy_testing.h:329-336 | level names read back as their level, and only level names do |
| Taxonomy.AccessToString | include/taxonomy_testing.h:338-345 | "unknown" exactly outside the three access levels |
| Taxonomy.ParseAccess | include/taxonomy_testing.h:338-345 | a recognised name stands for a valid access level |
| Taxonomy.AccessNameRoundTrip | include/taxonomy_testing.h:338-345 | access names read back as their access level, and only they do |
| Taxonomy.TestContext.constructor | include/taxonomy_testing.h:38-47 | a zero-filled context |
| Taxonomy.InitTestContext | include/taxonomy_testing.h:90-118 | INVALID_PARAMETER for NULL; otherwise zeroed, level and start stamp stored, tag and flags of the level; SUCCESS iff the level is known |
| Taxonomy.PreflightResult.constructor | include/taxonomy_testing.h:50-57 | a zero-filled result |
| Taxonomy.ElapsedMs | include/taxonomy_testing.h:125-167 | for ordered readings without overflow, the difference in milliseconds |
| Taxonomy.PreflightPassesIff | include/taxonomy_testing.h:139-164 | preflight passes iff the probe allocation succeeded and the level is known |
| Taxonomy.RunPreflightTests | include/taxonomy_testing.h:121-174 | INVALID_PARAMETER for NULL; otherwise the checks, the verdict as their conjunction, the duration in result and context; SUCCESS iff the verdict holds, else INVALID_STATE |
| DopAdapter.OopImpl.constructor | src/dop_adapter.c:71-74 | the instance holds the four callbacks and no component |
| DopAdapter.OopImpl.Create | src/dop_adapter.c:15-22 | INVALID_PARAMETER without a create callback; otherwise stores its result; SUCCESS iff non-NULL, else MEMORY_ALLOCATION |
| DopAdapter.OopImpl.Update | src/dop_adapter.c:24-30 | the update callback's result on the stored component's current state iff both are present, else INVALID_PARAMETER |
| DopAdapter.OopImpl.Destroy | src/dop_adapter.c:32-38 | the destroy callback's result on the stored component's current state iff both are present, else INVALID_PARAMETER |
| DopAdapter.OopImpl.Serialize | src/dop_adapter.c:40-46 | the serialize callback's text for the stored component's current state iff both are present, else NULL |
| DopAdapter.OopImpl.GetData | src/dop_adapter.c:48-51 | the stored component |
| DopAdapter.OopInterface.constructor | src/dop_adapter.c:76 | the interface over the given instance |
| DopAdapter.FuncToOop | src/dop_adapter.c:54-84 | NULL iff the create or update callback is missing; otherwise a fresh interface over an instance with the callbacks and no component |
| DopAdapter.NothingBeforeCreate | src/dop_adapter.c:26-51 | before create, update and destroy fail, serialize and get_data give NULL |
| DopAdapter.ViewOf | src/dop_adapter.c:27 | a callback sees the component's metadata, data and checksum as they are at the call |
| DopAdapter.UpdateStatus | src/obinexus_dop_core.c:119-121 | the core update's status for a component: SUCCESS iff its gate is OPEN, else INVALID_PARAMETER |
| DopAdapter.UpdateFollowsGate | src/dop_adapter.c:24-30 | with the core's update status as callback, the forwarded update succeeds iff the component's gate is OPEN |
| DopAdapter.OopToFuncCreate | src/dop_adapter.c:96-99 | NULL iff the interface is NULL, otherwise the create wrapper |
| DopAdapter.OopToFuncUpdate | src/dop_adapter.c:101-104 | NULL iff the interface is NULL, otherwise the update wrapper |
| DopAdapter.WrappersIgnoreInterface | src/dop_adapter.c:87-104 | every interface gives the same wrappers, and the two wrappers differ |
| DopAdapter.CallCreateWrapper | src/dop_adapter.c:87-90 | the core's create: NULL iff the type is invalid, else a fresh READY, CLOSED component of that type with its initial data |
| DopAdapter.CallUpdateWrapper | src/dop_adapter.c:92-94 | the core's update, with its full contract; for a component its status is `UpdateStatus` of the state before the call |

## Left out

- Mutexes: every `pthread_mutex_lock`/`unlock` pair is dropped, and each whole call is one atomic step. In the C code the gate check of `dop_func_update_component` (src/obinexus_dop_core.c:119) and of `dop_alarm_set_time` (src/components/alarm.c:9) runs before the lock is taken, so a concurrent `dop_gate_close` can land between the check and the update; the model does not capture that interleaving.
- Worker threads and network start: `topology_worker_thread` and `dop_topology_start_p2p_network` depend on threads and sleeping, so they are not modelled.
- The one-second sleep in `dop_topology_test_fault_tolerance`: only the net effect on the gate is modelled, a close followed by an open.
- The wall clock: `dop_time_get_current` (`gettimeofday`, `localtime`) becomes a `now: TimeData` parameter.
- `time(NULL)`: it becomes a `clockSeconds` parameter. Both calls in create share that one value.
- Undefined helpers: `dop_time_add_duration`, `dop_time_diff_ms` and `dop_time_is_equal` have no body anywhere. They are the fields of a caller-supplied `TimeOps` value, and no property depends on what they compute.
- Other functions that are only declared: `dop_func_destroy_component`, `dop_func_serialize_component`, `dop_checksum_verify`, `dop_component_validate_integrity`, `dop_gate_isolate` and the XML manifest functions. They have no body, so they are not modelled.
- include/nexus_link_semserver_x.h is not part of this model. It holds only declarations.
- Allocation failure: the allocations in create, `create_node`, `format_time` and `func_to_oop` are assumed to succeed. The exception is the preflight probe allocation, which is an input.
- `printf` output is not modelled.
- The test drivers are not modelled: `taxonomy_execute_stress_test`, `taxonomy_memory_load_test`, `clock_taxonomy_test_time_precision` and the other clock test drivers.
- `taxonomy_validate_access_level` is declared but has no body, so it is not modelled.
- The byte image under the checksum is an assumed layout: LP64, little-endian, zero padding, a 104-byte union. The bytes of the live member come first, then zeros. Padding bytes that a struct copy might leave non-zero in C are taken to be zero.
- Callback effects: the adapter's callbacks are pure function values. Update, destroy and serialize see a value copy of the stored component's state (`DopAdapter.View`), so their results can depend on it, but not on which object it is, and they cannot allocate or change the heap. The create callback cannot allocate, so it can only return an existing component or NULL. So neither `dop_func_create_component` nor `dop_func_update_component` can be plugged in as a callback, as src/demo/dop_demo.c does: the model gives their status (`DopAdapter.UpdateStatus`), and their full effects are the wrapper calls `DopAdapter.CallCreateWrapper` and `DopAdapter.CallUpdateWrapper`.
- DopCore.ChecksumOfBytes: the C inner bit loop is written as the separate method `DopCore.ShiftInByte`, called once per byte. The computation is the same.
- DopCore.UpdateComponent: the stopwatch branch adds the whole time since start to the elapsed time at every update, as the code does. Whether that double-counts depends on the undefined `dop_time_add_duration`/`dop_time_diff_ms`, so no property of elapsed time is claimed.
- DopAdapter.CallCreateWrapper: it states only part of `DopCore.CreateComponent`'s contract: null-ness, freshness, well-formedness, the checksum, kind, state, gate and initial data. It does not state the identifier, name, version and timestamps.
- DopTopology.BoundedId: node identifiers are taken to contain no NUL character. `strncpy` would stop at an embedded NUL; the model copies the first 63 characters regardless.
- DopTopology.TestFaultTolerance: the intermediate CLOSED state between the two gate calls is not observable in this sequential model, and is not stated.
