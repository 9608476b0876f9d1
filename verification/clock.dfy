/** The wall-clock component (src/components/clock.c): set the timezone
    offset and the display format, each an update of the clock record
    followed by a fresh checksum, and the read-only formatter that renders
    the current time in 24-hour or 12-hour form into a 32-byte buffer. */
module DopClock {
  import opened DopTypes
  import DopCore
  import Decimal

  /** The operations that change a clock record; `Update` is the clock branch
      of the core's update step. */
  datatype Op =
    | SetTimezone(offsetHours: i32)
    | SetFormat(is24Hour: bool)
    | Update(now: TimeData)

  /** The effect of one operation on the record. The signed offset is stored
      into the unsigned 32-bit field, so a negative offset wraps modulo 2^32. */
  function Step(k: ClockData, op: Op): (r: ClockData)
    ensures !op.Update? ==> r.currentTime == k.currentTime && r.isRunning == k.isRunning
    ensures op.Update? ==> r == k.(currentTime := op.now)
  {
    match op
    case SetTimezone(h) => k.(timezoneOffset := AsUnsigned32(h))
    case SetFormat(b) => k.(is24HourFormat := b)
    case Update(now) => DopCore.AdvanceClock(k, now)
  }

  // ------------------------------------------------------- per-operation facts

  /** The stored offset, read back as a signed value, is the offset given;
      nothing but the offset changes. */
  lemma SetTimezoneFacts(k: ClockData, h: i32)
    ensures var r := Step(k, SetTimezone(h));
      && AsSigned32(r.timezoneOffset) == h
      && r.currentTime == k.currentTime && r.isRunning == k.isRunning
      && r.is24HourFormat == k.is24HourFormat
  {
    SignedRoundTrip(h);
  }

  /** An offset of -5 hours is stored as 4294967291. */
  lemma MinusFiveWraps(k: ClockData)
    ensures Step(k, SetTimezone(-5)).timezoneOffset == 4_294_967_291
  {
  }

  /** Setting the format changes the format flag and nothing else. */
  lemma SetFormatFacts(k: ClockData, b: bool)
    ensures var r := Step(k, SetFormat(b));
      && r.is24HourFormat == b
      && r.currentTime == k.currentTime && r.isRunning == k.isRunning
      && r.timezoneOffset == k.timezoneOffset
  {
  }

  // ------------------------------------------------------------ the hour dial

  /** The 12-hour dial: 0 is 12 AM, 1..11 are AM, 12 is 12 PM, 13..23 are
      1..11 PM. The second component says PM. */
  function TwelveHour(h: u32): (r: (u32, bool))
    ensures r.1 <==> h >= 12
    ensures h <= 23 ==> 1 <= r.0 <= 12 && ToTwentyFour(r.0, r.1) == h
  {
    if h == 0 then (12, false)
    else if h > 12 then (h - 12, true)
    else if h == 12 then (12, true)
    else (h, false)
  }

  /** Reading a 12-hour dial back as a 24-hour hour. */
  function ToTwentyFour(dh: nat, pm: bool): nat {
    if pm then (if dh == 12 then 12 else dh + 12) else (if dh == 12 then 0 else dh)
  }

  /** Different hours of the day show different dial readings. */
  lemma TwelveHourInjective(h1: u32, h2: u32)
    requires h1 <= 23 && h2 <= 23 && h1 != h2
    ensures TwelveHour(h1) != TwelveHour(h2)
  {
    assert ToTwentyFour(TwelveHour(h1).0, TwelveHour(h1).1) == h1;
  }

  // ---------------------------------------------------------------- rendering

  /** `"%02u:%02u:%02u.%03u"`: the padded hour, then the shared tail. */
  function Render24(t: TimeData): (s: string)
    ensures |s| >= 12 && Decimal.AllDigits(s[..2])
  {
    Decimal.Padded(t.hours, 2) + Tail(t)
  }

  /** `"%u:%02u:%02u.%03u %s"`: the unpadded dial hour, the shared tail, and
      " AM" or " PM". */
  function Render12(t: TimeData): (s: string)
    ensures |s| >= 14 && Decimal.IsDigit(s[0])
    ensures s[|s| - 3..] == (if t.hours >= 12 then " PM" else " AM")
  {
    var (dh, pm) := TwelveHour(t.hours);
    Decimal.Digits(dh) + Tail(t) + (if pm then " PM" else " AM")
  }

  /** The tail ":MM:SS.mmm" shared by both renderings: zero-padded minutes and
      seconds, three-digit milliseconds, each after its separator. */
  function Tail(t: TimeData): (s: string)
    ensures |s| >= 10 && s[0] == ':'
  {
    Field(':', t.minutes, 2) + Field(':', t.seconds, 2) + Field('.', t.milliseconds, 3)
  }

  /** One field of the tail: a separator, then the number zero-padded to `w`. */
  function Field(sep: char, n: nat, w: nat): (s: string)
    ensures |s| >= w + 1 && s[0] == sep
  {
    [sep] + Decimal.Padded(n, w)
  }

  /** The size of the buffer `format_time` allocates, terminator included. */
  const BufferSize: nat := 32

  /** What a bounded print into the buffer keeps of `s`. */
  function Bounded(s: string): (r: string)
    ensures |r| < BufferSize
    ensures |s| < BufferSize ==> r == s
    ensures r == s[..|r|]
  {
    if |s| < BufferSize then s else s[..BufferSize - 1]
  }

  /** The text the formatter produces for a clock record. */
  function Format(k: ClockData): (s: string)
    ensures |s| < BufferSize
    ensures k.is24HourFormat ==> |s| <= |Render24(k.currentTime)| && s == Render24(k.currentTime)[..|s|]
    ensures !k.is24HourFormat ==> |s| <= |Render12(k.currentTime)| && s == Render12(k.currentTime)[..|s|]
  {
    Bounded(if k.is24HourFormat then Render24(k.currentTime) else Render12(k.currentTime))
  }

  /** The display hour, minutes and seconds fit their fields. */
  predicate Displayable(t: TimeData) {
    t.hours <= 23 && t.minutes < 100 && t.seconds < 100 && t.milliseconds < 1000
  }

  /** A zero-padded field of width `w` below `10^w` is exactly `w` digits that
      read back as the number. */
  lemma PaddedField(n: nat, w: nat)
    requires 1 <= w && n < Decimal.Pow10(w)
    ensures |Decimal.Padded(n, w)| == w && Decimal.Value(Decimal.Padded(n, w)) == n
  {
    Decimal.PaddedWidth(n, w);
    Decimal.ValueOfPadded(n, w);
  }

  /** The tail is ten characters whose fields read back as minutes, seconds
      and milliseconds. */
  lemma TailLayout(t: TimeData)
    requires t.minutes < 100 && t.seconds < 100 && t.milliseconds < 1000
    ensures var s := Tail(t);
      && |s| == 10 && s[0] == ':' && s[3] == ':' && s[6] == '.'
      && Decimal.AllDigits(s[1..3]) && Decimal.Value(s[1..3]) == t.minutes
      && Decimal.AllDigits(s[4..6]) && Decimal.Value(s[4..6]) == t.seconds
      && Decimal.AllDigits(s[7..10]) && Decimal.Value(s[7..10]) == t.milliseconds
  {
    assert Decimal.Pow10(2) == 100;
    assert Decimal.Pow10(3) == 1000;
    var m := Field(':', t.minutes, 2);
    var sec := Field(':', t.seconds, 2);
    var ms := Field('.', t.milliseconds, 3);
    FieldLayout(':', t.minutes, 2);
    FieldLayout(':', t.seconds, 2);
    FieldLayout('.', t.milliseconds, 3);
    ThreeFields(m, sec, ms);
  }

  /** In `a + b + c`, each part after its first character, and the first
      characters of `b` and `c`, sit where the lengths say. */
  lemma ThreeFields(a: string, b: string, c: string)
    requires 1 <= |a| && 1 <= |b| && 1 <= |c|
    ensures var s := a + b + c;
      && s[0] == a[0] && s[|a|] == b[0] && s[|a| + |b|] == c[0]
      && s[1..|a|] == a[1..] && s[|a| + 1..|a| + |b|] == b[1..] && s[|a| + |b| + 1..|s|] == c[1..]
  {
    var s := a + b + c;
    assert s[..|a|] == a;
    assert s[|a|..|a| + |b|] == b;
    assert s[|a| + |b|..] == c;
  }

  /** Each of `a`, `b` and `c` can be cut back out of `a + b + c`. */
  lemma ThreePieces(a: string, b: string, c: string)
    ensures var s := a + b + c;
      && s[..|a|] == a && s[|a|..|a| + |b|] == b && s[|a| + |b|..] == c
  {
  }

  /** A field below `10^w` is its separator and `w` digits reading back as the number. */
  lemma FieldLayout(sep: char, n: nat, w: nat)
    requires 1 <= w && n < Decimal.Pow10(w)
    ensures var f := Field(sep, n, w);
      && |f| == w + 1 && f[0] == sep
      && Decimal.AllDigits(f[1..]) && Decimal.Value(f[1..]) == n
  {
    PaddedField(n, w);
    assert Field(sep, n, w)[1..] == Decimal.Padded(n, w);
  }

  /** In 24-hour form a displayable time is the twelve characters
      "HH:MM:SS.mmm", and each field reads back as the value rendered. */
  lemma Render24Layout(t: TimeData)
    requires Displayable(t)
    ensures var s := Render24(t);
      && |s| == 12 && s[2..] == Tail(t)
      && Decimal.AllDigits(s[..2]) && Decimal.Value(s[..2]) == t.hours
  {
    assert Decimal.Pow10(2) == 100;
    PaddedField(t.hours, 2);
    TailLayout(t);
    var s := Render24(t);
    assert s[..2] == Decimal.Padded(t.hours, 2);
  }

  /** In 12-hour form a displayable time is the unpadded dial hour, the tail
      and " AM" or " PM"; the hour reads back as the dial hour, and together
      with the suffix it gives back the hour of the day. */
  lemma Render12Layout(t: TimeData)
    requires Displayable(t)
    ensures var s := Render12(t);
      var n := |s| - 13;
      && (n == 1 || n == 2)
      && s[n..n + 10] == Tail(t)
      && s[n + 10..] == (if t.hours >= 12 then " PM" else " AM")
      && Decimal.AllDigits(s[..n])
      && ToTwentyFour(Decimal.Value(s[..n]), t.hours >= 12) == t.hours
  {
    var (dh, pm) := TwelveHour(t.hours);
    var d := Decimal.Digits(dh);
    Decimal.DigitsOfSmall(dh);
    Decimal.ValueOfDigits(dh);
    TailLayout(t);
    ThreePieces(d, Tail(t), if pm then " PM" else " AM");
  }

  /** Both renderings of a displayable time fit the buffer, so nothing is cut off. */
  lemma DisplayableNotTruncated(k: ClockData)
    requires Displayable(k.currentTime)
    ensures Format(k) == if k.is24HourFormat then Render24(k.currentTime) else Render12(k.currentTime)
  {
    Render24Layout(k.currentTime);
    Render12Layout(k.currentTime);
  }

  /** The formatter ignores the timezone offset and the running flag: only the
      current time and the format flag decide the text. */
  lemma FormatIgnoresOffset(k: ClockData, offset: u32, running: bool)
    ensures Format(k.(timezoneOffset := offset, isRunning := running)) == Format(k)
  {
  }

  // ------------------------------------------------------------------ methods

  /** `dop_clock_set_timezone`. */
  method ClockSetTimezone(c: Component?, offsetHours: i32) returns (err: int)
    requires c != null ==> c.WellFormed()
    modifies c
    ensures !old(DopCore.HasKind(c, Clock)) ==> err == InvalidParameter && (c != null ==> unchanged(c))
    ensures old(DopCore.HasKind(c, Clock)) ==>
      && err == Success
      && c.data == ClockPart(Step(old(c.data).clock, SetTimezone(offsetHours)))
      && c.metadata == old(c.metadata) && c.ChecksumMatches()
  {
    if c == null || c.metadata.kind != Clock {
      return InvalidParameter;
    }
    var k := c.data.clock;
    k := k.(timezoneOffset := AsUnsigned32(offsetHours));
    DopCore.StoreData(c, ClockPart(k));
    return Success;
  }

  /** `dop_clock_set_format`. */
  method ClockSetFormat(c: Component?, is24Hour: bool) returns (err: int)
    requires c != null ==> c.WellFormed()
    modifies c
    ensures !old(DopCore.HasKind(c, Clock)) ==> err == InvalidParameter && (c != null ==> unchanged(c))
    ensures old(DopCore.HasKind(c, Clock)) ==>
      && err == Success
      && c.data == ClockPart(Step(old(c.data).clock, SetFormat(is24Hour)))
      && c.metadata == old(c.metadata) && c.ChecksumMatches()
  {
    if c == null || c.metadata.kind != Clock {
      return InvalidParameter;
    }
    var k := c.data.clock;
    k := k.(is24HourFormat := is24Hour);
    DopCore.StoreData(c, ClockPart(k));
    return Success;
  }

  /** `dop_clock_format_time`: NULL for NULL or a component that is not a
      clock; otherwise the rendering of the current time, at most 31
      characters. It reads the component and changes nothing. */
  function ClockFormatTime(c: Component?): (r: Option<string>)
    requires c != null ==> c.WellFormed()
    reads c
    ensures r.None? <==> !DopCore.HasKind(c, Clock)
    ensures r.Some? ==> |r.value| < BufferSize && r.value == Format(c.data.clock)
  {
    if c == null || c.metadata.kind != Clock then None else Some(Format(c.data.clock))
  }
}
