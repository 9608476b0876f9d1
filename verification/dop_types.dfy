/** The record shapes of the component core: fixed-width integers, the status
    codes, the component type, lifecycle and gate enumerations, the per-type
    data records and their union, the metadata record, and the component
    object itself. The byte image of the data union, over which the integrity
    checksum runs, is defined here too. */
module DopTypes {
  import Crc32

  datatype Option<+T> = None | Some(value: T)

  // ---------------------------------------------------------------- widths

  const Two32: int := 0x1_0000_0000
  const Two64: int := 0x1_0000_0000_0000_0000

  type u32 = x: int | 0 <= x < 0x1_0000_0000
  type u64 = x: int | 0 <= x < 0x1_0000_0000_0000_0000
  type i32 = x: int | -0x8000_0000 <= x < 0x8000_0000

  /** Unsigned 32-bit arithmetic wraps around. */
  function Wrap32(x: int): (r: u32)
    ensures 0 <= x < Two32 ==> r == x
    ensures Two32 <= x < 2 * Two32 ==> r == x - Two32
  {
    x % Two32
  }

  /** Unsigned 64-bit arithmetic wraps around. */
  function Wrap64(x: int): (r: u64)
    ensures 0 <= x < Two64 ==> r == x
    ensures -Two64 <= x < 0 ==> r == x + Two64
  {
    x % Two64
  }

  /** Storing a signed 32-bit value into an unsigned 32-bit field. */
  function AsUnsigned32(x: i32): (r: u32)
    ensures x >= 0 ==> r == x
    ensures x < 0 ==> r == x + Two32
  {
    x % Two32
  }

  /** Reading an unsigned 32-bit field back as a signed 32-bit value. */
  function AsSigned32(x: u32): (r: i32)
    ensures AsUnsigned32(r) == x
  {
    if x < 0x8000_0000 then x else x - Two32
  }

  /** The conversion into the unsigned field loses nothing: it is undone by
      reading the field back as signed. */
  lemma SignedRoundTrip(x: i32)
    ensures AsSigned32(AsUnsigned32(x)) == x
  {
  }

  // ---------------------------------------------------------- status codes

  const Success: int := 0
  const InvalidParameter: int := 1
  const InvalidState: int := 2
  const MemoryAllocation: int := 3
  const GateClosed: int := 4
  const ChecksumFailed: int := 5
  const TopologyFault: int := 6
  const XmlParsing: int := 7

  // ----------------------------------------------------------- enumerations

  datatype ComponentType = Alarm | Clock | Stopwatch | Timer

  /** The C enumerators ALARM..TIMER are the codes 0..3. */
  predicate IsTypeCode(t: int) {
    0 <= t < 4
  }

  function TypeCode(k: ComponentType): (t: int)
    ensures IsTypeCode(t)
  {
    match k
    case Alarm => 0
    case Clock => 1
    case Stopwatch => 2
    case Timer => 3
  }

  function TypeOfCode(t: int): (k: ComponentType)
    requires IsTypeCode(t)
    ensures TypeCode(k) == t
  {
    if t == 0 then Alarm else if t == 1 then Clock else if t == 2 then Stopwatch else Timer
  }

  datatype ComponentState = Uninitialized | Ready | Executing | Suspended | Error | Destroyed

  datatype GateState = Closed | Open | Isolated

  // ------------------------------------------------------------- the records

  /** A point in time as the wall clock reports it. */
  datatype TimeData = TimeData(timestampMs: u64, hours: u32, minutes: u32, seconds: u32,
                               milliseconds: u32, isValid: bool)

  const ZeroTime := TimeData(0, 0, 0, 0, 0, false)

  datatype AlarmData = AlarmData(alarmTime: TimeData, currentTime: TimeData, isArmed: bool,
                                 isTriggered: bool, snoozeDurationMs: u32)

  datatype ClockData = ClockData(currentTime: TimeData, isRunning: bool, timezoneOffset: u32,
                                 is24HourFormat: bool)

  datatype StopwatchData = StopwatchData(startTime: TimeData, currentTime: TimeData,
                                         elapsedTime: TimeData, isRunning: bool, isPaused: bool,
                                         lapCount: u32)

  datatype TimerData = TimerData(startTime: TimeData, duration: TimeData, remaining: TimeData,
                                 isRunning: bool, isExpired: bool, autoRestart: bool)

  /** The data union: exactly one of the four records is live, the one named
      by the component's type. */
  datatype ComponentData =
    | AlarmPart(alarm: AlarmData)
    | ClockPart(clock: ClockData)
    | StopwatchPart(stopwatch: StopwatchData)
    | TimerPart(timer: TimerData)

  function TypeOf(d: ComponentData): ComponentType {
    match d
    case AlarmPart(_) => Alarm
    case ClockPart(_) => Clock
    case StopwatchPart(_) => Stopwatch
    case TimerPart(_) => Timer
  }

  datatype Metadata = Metadata(componentId: string, componentName: string, version: string,
                               kind: ComponentType, state: ComponentState, gate: GateState,
                               creationTimestamp: u64, lastUpdateTimestamp: u64)

  /** The metadata of a zero-filled allocation. */
  const ZeroMetadata := Metadata("", "", "", Alarm, Uninitialized, Closed, 0, 0)

  /** The time helpers the core calls but whose bodies are not part of this
      model; they are supplied by the caller of `update`. */
  datatype TimeOps = TimeOps(addDuration: (TimeData, u64) -> TimeData,
                             isEqual: (TimeData, TimeData) -> bool,
                             diffMs: (TimeData, TimeData) -> u64)

  // -------------------------------------------------- byte image of the union

  function LittleEndian(x: nat, n: nat): (s: seq<bv8>)
    ensures |s| == n
  {
    if n == 0 then [] else [(x % 256) as bv8] + LittleEndian(x / 256, n - 1)
  }

  function Pow256(n: nat): (p: nat)
    ensures p >= 1
  {
    if n == 0 then 1 else 256 * Pow256(n - 1)
  }

  /** The number a little-endian byte field stands for. */
  function ValueOfBytes(s: seq<bv8>): (v: nat)
    ensures v < Pow256(|s|)
  {
    if |s| == 0 then 0 else s[0] as nat + 256 * ValueOfBytes(s[1..])
  }

  /** Reading an n-byte field back gives the value modulo 256^n, so the byte
      image of a field is one-to-one on the values that fit it. */
  lemma {:induction false} LittleEndianReadback(x: nat, n: nat)
    ensures ValueOfBytes(LittleEndian(x, n)) == x % Pow256(n)
  {
    if n > 0 {
      var s := LittleEndian(x, n);
      var rest := ValueOfBytes(s[1..]);
      LowByte(x, n);
      LittleEndianReadback(x / 256, n - 1);
      assert rest == (x / 256) % Pow256(n - 1);
      SplitMod(x, Pow256(n - 1));
      assert ValueOfBytes(s) == x % 256 + 256 * rest;
    }
  }

  /** The first byte of a field is the value's low byte; the rest is the
      field of the value shifted down by eight bits. */
  lemma LowByte(x: nat, n: nat)
    requires n > 0
    ensures LittleEndian(x, n)[0] as int == x % 256
    ensures LittleEndian(x, n)[1..] == LittleEndian(x / 256, n - 1)
  {
    ByteRoundTrip(x);
    ModUnique(x % 256, 256, 0, x % 256);
  }

  /** The low byte of v, as a byte, stands for v mod 256. */
  lemma ByteRoundTrip(v: nat)
    ensures ((v % 256) as bv8) as int == v % 256 % 256
  {
  }

  /** x mod 256·p is the low byte plus 256 times (x div 256) mod p. */
  lemma SplitMod(x: nat, p: nat)
    requires p >= 1
    ensures x % (256 * p) == x % 256 + 256 * ((x / 256) % p)
  {
    var q := x / 256;
    var r := x % 256;
    var q2 := q / p;
    var r2 := q % p;
    assert x == 256 * q + r;
    assert q == p * q2 + r2;
    assert x == (256 * p) * q2 + (256 * r2 + r);
    assert 0 <= 256 * r2 + r < 256 * p;
    ModUnique(x, 256 * p, q2, 256 * r2 + r);
  }

  lemma ModUnique(x: int, m: int, q: int, r: int)
    requires m > 0 && 0 <= r < m && x == m * q + r
    ensures x % m == r
  {
    var d := q - x / m;
    assert m * d == x % m - r;
    if d > 0 {
      MulAtLeast(m, d);
    } else if d < 0 {
      MulAtLeast(m, -d);
    }
  }

  lemma MulAtLeast(m: int, d: int)
    requires m > 0 && d >= 1
    ensures m * d >= m
  {
    assert m * d == m * (d - 1) + m;
  }

  function BoolByte(b: bool): seq<bv8> {
    [if b then 1 else 0]
  }

  function ZeroBytes(n: nat): (s: seq<bv8>)
    ensures |s| == n
  {
    seq(n, _ => 0)
  }

  /** `dop_time_data_t`: a 64-bit stamp at offset 0, four 32-bit fields from
      offset 8, a bool at 24, padding to 32. */
  function TimeBytes(t: TimeData): (s: seq<bv8>)
    ensures |s| == 32
  {
    LittleEndian(t.timestampMs, 8) + LittleEndian(t.hours, 4) + LittleEndian(t.minutes, 4)
    + LittleEndian(t.seconds, 4) + LittleEndian(t.milliseconds, 4) + BoolByte(t.isValid)
    + ZeroBytes(7)
  }

  /** The size of the union: its largest members, stopwatch and timer, take 104 bytes. */
  const UnionSize: nat := 104

  function MemberBytes(d: ComponentData): (s: seq<bv8>)
    ensures |s| <= UnionSize
  {
    match d
    case AlarmPart(a) =>
      TimeBytes(a.alarmTime) + TimeBytes(a.currentTime) + BoolByte(a.isArmed)
      + BoolByte(a.isTriggered) + ZeroBytes(2) + LittleEndian(a.snoozeDurationMs, 4)
    case ClockPart(c) =>
      TimeBytes(c.currentTime) + BoolByte(c.isRunning) + ZeroBytes(3)
      + LittleEndian(c.timezoneOffset, 4) + BoolByte(c.is24HourFormat) + ZeroBytes(7)
    case StopwatchPart(w) =>
      TimeBytes(w.startTime) + TimeBytes(w.currentTime) + TimeBytes(w.elapsedTime)
      + BoolByte(w.isRunning) + BoolByte(w.isPaused) + ZeroBytes(2) + LittleEndian(w.lapCount, 4)
    case TimerPart(t) =>
      TimeBytes(t.startTime) + TimeBytes(t.duration) + TimeBytes(t.remaining)
      + BoolByte(t.isRunning) + BoolByte(t.isExpired) + BoolByte(t.autoRestart) + ZeroBytes(5)
  }

  /** The bytes of the data union that the checksum reads: the live member,
      then the zero bytes the allocation left behind it. */
  function DataBytes(d: ComponentData): (s: seq<bv8>)
    ensures |s| == UnionSize
  {
    var m := MemberBytes(d);
    m + ZeroBytes(UnionSize - |m|)
  }

  // ------------------------------------------------------------ the component

  class Component {
    var metadata: Metadata
    var data: ComponentData
    var checksum: bv32

    /** A zero-filled allocation. */
    constructor Zeroed()
      ensures metadata == ZeroMetadata
      ensures data == AlarmPart(AlarmData(ZeroTime, ZeroTime, false, false, 0))
      ensures checksum == 0
    {
      metadata := ZeroMetadata;
      data := AlarmPart(AlarmData(ZeroTime, ZeroTime, false, false, 0));
      checksum := 0;
    }

    /** The union discipline: the live member is the one the type names. */
    predicate WellFormed()
      reads this
    {
      TypeOf(data) == metadata.kind
    }

    /** The stored checksum is the checksum of the current data. */
    predicate ChecksumMatches()
      reads this
    {
      checksum == Crc32.Checksum(DataBytes(data))
    }
  }
}
