/** The countdown timer component (src/components/timer.c): set the duration,
    start, stop and reset, each an update of the timer record followed by a
    fresh checksum, and the read-only expiry query. None of them consults the
    governance gate. `Step` is the effect of each operation on the record;
    the invariant "never running and expired at once" is proved about it. */
module DopTimer {
  import opened DopTypes
  import DopCore

  /** The operations that change a timer record; `Update` is the timer
      branch of the core's update step. */
  datatype Op =
    | SetDuration(durationMs: u64)
    | Start(now: TimeData)
    | Stop
    | Reset(now: TimeData)
    | Update(now: TimeData, ops: TimeOps)

  /** The effect of one operation on the record. */
  function Step(t: TimerData, op: Op): (r: TimerData)
    ensures Consistent(t) ==> Consistent(r)
    ensures r.isExpired && !t.isExpired ==> op.Update?
  {
    match op
    case SetDuration(ms) => t.(duration := t.duration.(timestampMs := ms))
    case Start(now) => t.(startTime := now, isRunning := true, isExpired := false)
    case Stop => t.(isRunning := false)
    case Reset(now) => t.(isRunning := false, isExpired := false, startTime := now)
    case Update(now, ops) => DopCore.AdvanceTimer(t, now, ops)
  }

  /** The effect of a sequence of operations, first to last. */
  function Run(t: TimerData, trace: seq<Op>): TimerData
    decreases |trace|
  {
    if |trace| == 0 then t else Run(Step(t, trace[0]), trace[1..])
  }

  /** A timer is never running and expired at the same time. */
  predicate Consistent(t: TimerData) {
    !(t.isRunning && t.isExpired)
  }

  // ------------------------------------------------------------ the invariant

  /** A new timer is consistent. */
  lemma InitialConsistent(now: TimeData)
    ensures DopCore.InitialData(Timer, now).TimerPart?
    ensures Consistent(DopCore.InitialData(Timer, now).timer)
  {
  }

  /** Every operation, and so every sequence of them, keeps the timer consistent. */
  lemma {:induction false} RunKeepsConsistent(t: TimerData, trace: seq<Op>)
    requires Consistent(t)
    ensures Consistent(Run(t, trace))
    decreases |trace|
  {
    if |trace| > 0 {
      RunKeepsConsistent(Step(t, trace[0]), trace[1..]);
    }
  }

  // ------------------------------------------------------- per-operation facts

  /** Setting the duration writes its millisecond count and nothing else. */
  lemma SetDurationFacts(t: TimerData, ms: u64)
    ensures var r := Step(t, SetDuration(ms));
      && r.duration.timestampMs == ms
      && r.isRunning == t.isRunning && r.isExpired == t.isExpired && r.startTime == t.startTime
      && r.remaining == t.remaining && r.autoRestart == t.autoRestart
  {
  }

  /** A started timer runs from `now` and is not expired; its duration is kept. */
  lemma StartFacts(t: TimerData, now: TimeData)
    ensures var r := Step(t, Start(now));
      r.isRunning && !r.isExpired && r.startTime == now && r.duration == t.duration
  {
  }

  /** Stopping clears only the running flag: an expired timer stays expired. */
  lemma StopFacts(t: TimerData)
    ensures var r := Step(t, Stop);
      !r.isRunning && r.isExpired == t.isExpired && r.startTime == t.startTime
      && r.duration == t.duration
  {
  }

  /** A reset timer is neither running nor expired and restarts its clock at
      `now`; its duration is kept. */
  lemma ResetFacts(t: TimerData, now: TimeData)
    ensures var r := Step(t, Reset(now));
      !r.isRunning && !r.isExpired && r.startTime == now && r.duration == t.duration
  {
  }

  /** Only the update step expires a timer: along a trace without `Update`, a
      timer that has not expired does not expire. */
  lemma {:induction false} ExpiresOnlyByUpdate(t: TimerData, trace: seq<Op>)
    requires !t.isExpired
    requires forall i :: 0 <= i < |trace| ==> !trace[i].Update?
    ensures !Run(t, trace).isExpired
    decreases |trace|
  {
    if |trace| > 0 {
      ExpiresOnlyByUpdate(Step(t, trace[0]), trace[1..]);
    }
  }

  // ------------------------------------------------------------------ methods

  /** `dop_timer_set_duration`. */
  method TimerSetDuration(c: Component?, durationMs: u64) returns (err: int)
    requires c != null ==> c.WellFormed()
    modifies c
    ensures !old(DopCore.HasKind(c, Timer)) ==> err == InvalidParameter && (c != null ==> unchanged(c))
    ensures old(DopCore.HasKind(c, Timer)) ==>
      && err == Success
      && c.data == TimerPart(Step(old(c.data).timer, SetDuration(durationMs)))
      && c.metadata == old(c.metadata) && c.ChecksumMatches()
  {
    if c == null || c.metadata.kind != Timer {
      return InvalidParameter;
    }
    var t := c.data.timer;
    t := t.(duration := t.duration.(timestampMs := durationMs));
    DopCore.StoreData(c, TimerPart(t));
    return Success;
  }

  /** `dop_timer_start`: `now` is the wall-clock reading. */
  method TimerStart(c: Component?, now: TimeData) returns (err: int)
    requires c != null ==> c.WellFormed()
    modifies c
    ensures !old(DopCore.HasKind(c, Timer)) ==> err == InvalidParameter && (c != null ==> unchanged(c))
    ensures old(DopCore.HasKind(c, Timer)) ==>
      && err == Success
      && c.data == TimerPart(Step(old(c.data).timer, Start(now)))
      && c.metadata == old(c.metadata) && c.ChecksumMatches()
  {
    if c == null || c.metadata.kind != Timer {
      return InvalidParameter;
    }
    var t := c.data.timer;
    t := t.(startTime := now);
    t := t.(isRunning := true, isExpired := false);
    DopCore.StoreData(c, TimerPart(t));
    return Success;
  }

  /** `dop_timer_stop`. */
  method TimerStop(c: Component?) returns (err: int)
    requires c != null ==> c.WellFormed()
    modifies c
    ensures !old(DopCore.HasKind(c, Timer)) ==> err == InvalidParameter && (c != null ==> unchanged(c))
    ensures old(DopCore.HasKind(c, Timer)) ==>
      && err == Success
      && c.data == TimerPart(Step(old(c.data).timer, Stop))
      && c.metadata == old(c.metadata) && c.ChecksumMatches()
  {
    if c == null || c.metadata.kind != Timer {
      return InvalidParameter;
    }
    var t := c.data.timer;
    t := t.(isRunning := false);
    DopCore.StoreData(c, TimerPart(t));
    return Success;
  }

  /** `dop_timer_reset`: `now` is the wall-clock reading. */
  method TimerReset(c: Component?, now: TimeData) returns (err: int)
    requires c != null ==> c.WellFormed()
    modifies c
    ensures !old(DopCore.HasKind(c, Timer)) ==> err == InvalidParameter && (c != null ==> unchanged(c))
    ensures old(DopCore.HasKind(c, Timer)) ==>
      && err == Success
      && c.data == TimerPart(Step(old(c.data).timer, Reset(now)))
      && c.metadata == old(c.metadata) && c.ChecksumMatches()
  {
    if c == null || c.metadata.kind != Timer {
      return InvalidParameter;
    }
    var t := c.data.timer;
    t := t.(isRunning := false, isExpired := false);
    t := t.(startTime := now);
    DopCore.StoreData(c, TimerPart(t));
    return Success;
  }

  /** `dop_timer_is_expired`: false for NULL or a component that is not a
      timer, otherwise the stored expiry flag. */
  function TimerIsExpired(c: Component?): (r: bool)
    requires c != null ==> c.WellFormed()
    reads c
    ensures r ==> DopCore.HasKind(c, Timer)
    ensures DopCore.HasKind(c, Timer) ==> (r <==> c.data.timer.isExpired)
  {
    if c == null || c.metadata.kind != Timer then false else c.data.timer.isExpired
  }

  /** Once a timer component has been started it does not report expiry
      until an update finds its time has come. */
  lemma StartedTimerNotExpired(t: TimerData, now: TimeData, trace: seq<Op>)
    requires forall i :: 0 <= i < |trace| ==> !trace[i].Update?
    ensures !Run(Step(t, Start(now)), trace).isExpired
  {
    ExpiresOnlyByUpdate(Step(t, Start(now)), trace);
  }
}
