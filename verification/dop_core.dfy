/** The component core: the integrity checksum, creation, the gate-guarded
    update step, the governance gate, and the status strings
    (src/obinexus_dop_core.c; obinexus_dop_c_implementation.c carries the same
    code). Each mutex-protected body is one atomic step here. */
module DopCore {
  import opened DopTypes
  import Crc32
  import Decimal

  // ------------------------------------------------------------ checksum

  /** The inner loop of `dop_checksum_calculate`: xor one byte into the
      register, then shift it eight times, xor-ing in the polynomial whenever
      a set bit is shifted out. */
  method ShiftInByte(register: bv32, b: bv8) returns (checksum: bv32)
    ensures checksum == Crc32.AddByte(register, b)
  {
    checksum := register ^ (b as bv32);
    ghost var mixed := checksum;
    var j := 0;
    while j < 8
      invariant 0 <= j <= 8
      invariant checksum == Crc32.ShiftBits(mixed, j)
    {
      if checksum & 1 == 1 {
        checksum := (checksum >> 1) ^ 0xEDB8_8320;
      } else {
        checksum := checksum >> 1;
      }
      j := j + 1;
    }
  }

  /** The outer loop of `dop_checksum_calculate`: the register starts at all
      ones, takes in every byte in order, and is complemented at the end. */
  method ChecksumOfBytes(bytes: seq<bv8>) returns (sum: bv32)
    ensures sum == Crc32.Checksum(bytes)
  {
    var checksum: bv32 := 0xFFFF_FFFF;
    var i := 0;
    while i < |bytes|
      invariant 0 <= i <= |bytes|
      invariant checksum == Crc32.Feed(Crc32.Preset, bytes[..i])
    {
      Crc32.FeedSnoc(Crc32.Preset, bytes[..i], bytes[i]);
      assert bytes[..i + 1] == bytes[..i] + [bytes[i]];
      checksum := ShiftInByte(checksum, bytes[i]);
      i := i + 1;
    }
    assert bytes[..|bytes|] == bytes;
    return !checksum;
  }

  /** `dop_checksum_calculate`: zero for NULL, otherwise the CRC-32 of the
      bytes of the data union. The metadata does not enter into it. */
  method ChecksumCalculate(c: Component?) returns (sum: bv32)
    ensures c == null ==> sum == 0
    ensures c != null ==> sum == Crc32.Checksum(DataBytes(c.data))
  {
    if c == null {
      return 0;
    }
    sum := ChecksumOfBytes(DataBytes(c.data));
  }

  /** The component is there and is of kind `k`: the guard every per-type
      operation starts with. */
  predicate HasKind(c: Component?, k: ComponentType)
    reads c
  {
    c != null && c.metadata.kind == k
  }

  /** The tail of every per-type mutator: store the new data, then recompute
      the checksum over it. The metadata is left alone. */
  method StoreData(c: Component, d: ComponentData)
    modifies c
    ensures c.data == d && c.metadata == old(c.metadata) && c.ChecksumMatches()
  {
    c.data := d;
    c.checksum := ChecksumCalculate(c);
  }

  // ------------------------------------------------------------ creation

  function ComponentName(k: ComponentType): (s: string)
    ensures 10 <= |s| < 128 && s[|s| - 10..] == " Component"
  {
    match k
    case Alarm => "Alarm Component"
    case Clock => "Clock Component"
    case Stopwatch => "Stopwatch Component"
    case Timer => "Timer Component"
  }

  /** The identifier "comp_<type>_<seconds>"; it always fits the 64-byte
      buffer, so the bounded print never truncates it. */
  function ComponentId(t: int, clockSeconds: u64): (id: string)
    requires IsTypeCode(t)
    ensures |id| <= 63
  {
    Decimal.DigitsOfU64(clockSeconds);
    "comp_" + Decimal.Digits(t) + "_" + Decimal.Digits(clockSeconds)
  }

  /** The per-type data a new component starts with; fields not named in the
      source keep the zero of the allocation. */
  function InitialData(k: ComponentType, now: TimeData): (d: ComponentData)
    ensures TypeOf(d) == k
  {
    match k
    case Clock => ClockPart(ClockData(now, true, 0, true))
    case Alarm => AlarmPart(AlarmData(ZeroTime, now, false, false, 300000))
    case Stopwatch => StopwatchPart(StopwatchData(ZeroTime, ZeroTime, ZeroTime, false, false, 0))
    case Timer => TimerPart(TimerData(ZeroTime, ZeroTime, ZeroTime, false, false, false))
  }

  /** The initial state per type: a clock runs in 24-hour format with no
      offset from the current time; an alarm is neither armed nor triggered,
      snoozes for five minutes and knows the current time; a stopwatch is
      stopped, unpaused, without laps; a timer is neither running nor expired
      and does not restart itself. */
  lemma InitialDataFacts(k: ComponentType, now: TimeData)
    ensures var d := InitialData(k, now);
      match d
      case ClockPart(c) => c.isRunning && c.timezoneOffset == 0 && c.is24HourFormat && c.currentTime == now
      case AlarmPart(a) =>
        !a.isArmed && !a.isTriggered && a.snoozeDurationMs == 300000 && a.currentTime == now
        && a.alarmTime == ZeroTime
      case StopwatchPart(w) => !w.isRunning && !w.isPaused && w.lapCount == 0
      case TimerPart(t) => !t.isRunning && !t.isExpired && !t.autoRestart
  {
  }

  /** `dop_func_create_component`: NULL for a type code outside ALARM..TIMER;
      otherwise a fresh component that is READY, behind a CLOSED gate,
      version "1.0.0", stamped with the creation time, holding the per-type
      initial data and the checksum of that data. `clockSeconds` is what
      `time(NULL)` reports and `now` what the wall clock reads. */
  method CreateComponent(t: int, clockSeconds: u64, now: TimeData) returns (c: Component?)
    ensures c == null <==> !IsTypeCode(t)
    ensures c != null ==> fresh(c) && c.WellFormed() && c.ChecksumMatches()
    ensures c != null ==>
      var kind := TypeOfCode(t);
      && c.metadata.kind == kind
      && c.metadata.componentId == ComponentId(t, clockSeconds)
      && c.metadata.componentName == ComponentName(kind)
      && c.metadata.version == "1.0.0"
      && c.metadata.state == Ready
      && c.metadata.gate == Closed
      && c.metadata.creationTimestamp == Wrap64(clockSeconds * 1000)
      && c.metadata.lastUpdateTimestamp == c.metadata.creationTimestamp
      && c.data == InitialData(kind, now)
  {
    if !IsTypeCode(t) {
      // the allocation is released again
      return null;
    }
    var kind := TypeOfCode(t);
    c := new Component.Zeroed();
    var created := Wrap64(clockSeconds * 1000);
    c.metadata := Metadata(ComponentId(t, clockSeconds), ComponentName(kind), "1.0.0", kind,
                           Ready, Closed, created, created);
    c.data := InitialData(kind, now);
    c.checksum := ChecksumCalculate(c);
  }

  // ------------------------------------------------------------ the gate

  /** `dop_gate_is_accessible`: a component is accessible exactly when its gate is OPEN. */
  function GateIsAccessible(c: Component?): (r: bool)
    reads c
    ensures r <==> c != null && c.metadata.gate == Open
  {
    if c == null then false else c.metadata.gate == Open
  }

  /** `dop_gate_open`: the gate becomes OPEN and nothing else changes. */
  method GateOpen(c: Component?) returns (err: int)
    modifies c
    ensures c == null ==> err == InvalidParameter
    ensures c != null ==> err == Success && c.metadata == old(c.metadata).(gate := Open)
    ensures c != null ==> c.data == old(c.data) && c.checksum == old(c.checksum)
  {
    if c == null {
      return InvalidParameter;
    }
    c.metadata := c.metadata.(gate := Open);
    return Success;
  }

  /** `dop_gate_close`: the gate becomes CLOSED and nothing else changes. */
  method GateClose(c: Component?) returns (err: int)
    modifies c
    ensures c == null ==> err == InvalidParameter
    ensures c != null ==> err == Success && c.metadata == old(c.metadata).(gate := Closed)
    ensures c != null ==> c.data == old(c.data) && c.checksum == old(c.checksum)
  {
    if c == null {
      return InvalidParameter;
    }
    c.metadata := c.metadata.(gate := Closed);
    return Success;
  }

  // ------------------------------------------------------------ update

  function AdvanceClock(k: ClockData, now: TimeData): (r: ClockData)
    ensures r.currentTime == now && r.(currentTime := k.currentTime) == k
  {
    k.(currentTime := now)
  }

  /** The alarm takes the new time and triggers when it is armed and the
      time equals its alarm time; a trigger is never cleared here. */
  function AdvanceAlarm(a: AlarmData, now: TimeData, ops: TimeOps): (r: AlarmData)
    ensures r.currentTime == now && r.alarmTime == a.alarmTime
    ensures r.isArmed == a.isArmed && r.snoozeDurationMs == a.snoozeDurationMs
    ensures a.isTriggered ==> r.isTriggered
  {
    var a' := a.(currentTime := now);
    if a'.isArmed && ops.isEqual(now, a'.alarmTime) then a'.(isTriggered := true) else a'
  }

  /** A running, unpaused stopwatch takes the new time and accumulates the
      time since its start; otherwise it is left alone. */
  function AdvanceStopwatch(w: StopwatchData, now: TimeData, ops: TimeOps): (r: StopwatchData)
    ensures r.isRunning == w.isRunning && r.isPaused == w.isPaused
    ensures r.startTime == w.startTime && r.lapCount == w.lapCount
    ensures !w.isRunning || w.isPaused ==> r == w
  {
    if w.isRunning && !w.isPaused then
      var w' := w.(currentTime := now);
      w'.(elapsedTime := ops.addDuration(w'.elapsedTime, ops.diffMs(w'.currentTime, w'.startTime)))
    else
      w
  }

  /** A running timer whose elapsed time has reached its duration expires and stops. */
  function AdvanceTimer(t: TimerData, now: TimeData, ops: TimeOps): (r: TimerData)
    ensures r.startTime == t.startTime && r.duration == t.duration && r.autoRestart == t.autoRestart
    ensures !t.isRunning ==> r == t
    ensures r != t ==> r.isExpired && !r.isRunning
  {
    if t.isRunning && ops.diffMs(now, t.startTime) >= t.duration.timestampMs then
      t.(isExpired := true, isRunning := false)
    else
      t
  }

  function Advance(d: ComponentData, now: TimeData, ops: TimeOps): (r: ComponentData)
    ensures TypeOf(r) == TypeOf(d)
  {
    match d
    case ClockPart(k) => ClockPart(AdvanceClock(k, now))
    case AlarmPart(a) => AlarmPart(AdvanceAlarm(a, now, ops))
    case StopwatchPart(w) => StopwatchPart(AdvanceStopwatch(w, now, ops))
    case TimerPart(t) => TimerPart(AdvanceTimer(t, now, ops))
  }

  /** `dop_func_update_component`: INVALID_PARAMETER and no change for NULL or
      a gate that is not OPEN; otherwise the per-type step above, the
      last-update stamp set to the current time, the checksum recomputed,
      and SUCCESS. `now` is the wall-clock reading; `ops` supplies the time
      helpers. */
  method UpdateComponent(c: Component?, now: TimeData, ops: TimeOps) returns (err: int)
    requires c != null ==> c.WellFormed()
    modifies c
    ensures c != null ==> c.WellFormed()
    ensures !old(GateIsAccessible(c)) ==> err == InvalidParameter && (c != null ==> unchanged(c))
    ensures old(GateIsAccessible(c)) ==>
      && err == Success
      && c.data == Advance(old(c.data), now, ops)
      && c.metadata == old(c.metadata).(lastUpdateTimestamp := now.timestampMs)
      && c.ChecksumMatches()
  {
    if c == null || !GateIsAccessible(c) {
      return InvalidParameter;
    }
    match c.metadata.kind {
      case Clock =>
        c.data := ClockPart(c.data.clock.(currentTime := now));
      case Alarm =>
        var a := c.data.alarm.(currentTime := now);
        if a.isArmed && ops.isEqual(now, a.alarmTime) {
          a := a.(isTriggered := true);
        }
        c.data := AlarmPart(a);
      case Stopwatch =>
        var w := c.data.stopwatch;
        if w.isRunning && !w.isPaused {
          w := w.(currentTime := now);
          w := w.(elapsedTime := ops.addDuration(w.elapsedTime, ops.diffMs(w.currentTime, w.startTime)));
        }
        c.data := StopwatchPart(w);
      case Timer =>
        var t := c.data.timer;
        if t.isRunning {
          var elapsed := ops.diffMs(now, t.startTime);
          if elapsed >= t.duration.timestampMs {
            t := t.(isExpired := true, isRunning := false);
          }
        }
        c.data := TimerPart(t);
    }
    c.metadata := c.metadata.(lastUpdateTimestamp := now.timestampMs);
    c.checksum := ChecksumCalculate(c);
    return Success;
  }

  /** The timer branch of update: an expiring timer ends expired and not
      running, any other timer is untouched. */
  lemma AdvanceTimerExpiry(t: TimerData, now: TimeData, ops: TimeOps)
    ensures var r := AdvanceTimer(t, now, ops);
      if t.isRunning && ops.diffMs(now, t.startTime) >= t.duration.timestampMs
      then r.isExpired && !r.isRunning && r.startTime == t.startTime && r.duration == t.duration
      else r == t
  {
  }

  /** The alarm branch of update: the trigger flag becomes set exactly when it
      was set already, or the alarm is armed and its time has come. */
  lemma AdvanceAlarmTrigger(a: AlarmData, now: TimeData, ops: TimeOps)
    ensures var r := AdvanceAlarm(a, now, ops);
      && r.isTriggered == (a.isTriggered || (a.isArmed && ops.isEqual(now, a.alarmTime)))
      && r.isArmed == a.isArmed && r.alarmTime == a.alarmTime && r.currentTime == now
  {
  }

  // ------------------------------------------------------------ status strings

  /** `dop_error_to_string`: a fixed text per status code, and "Unknown error"
      for everything else. */
  function ErrorToString(code: int): (s: string)
    ensures s == "Unknown error" <==> !(Success <= code <= XmlParsing)
  {
    if code == Success then "Success"
    else if code == InvalidParameter then "Invalid parameter"
    else if code == InvalidState then "Invalid state"
    else if code == MemoryAllocation then "Memory allocation failed"
    else if code == GateClosed then "Component gate is closed"
    else if code == ChecksumFailed then "Checksum verification failed"
    else if code == TopologyFault then "Topology fault detected"
    else if code == XmlParsing then "XML parsing error"
    else "Unknown error"
  }

  /** No two status codes share a text, so the text identifies the code. */
  lemma ErrorStringsDistinct(a: int, b: int)
    requires Success <= a <= XmlParsing && Success <= b <= XmlParsing && a != b
    ensures ErrorToString(a) != ErrorToString(b)
  {
  }
}
