/** The stopwatch component (src/components/stopwatch.c): start, stop, pause,
    reset and lap, each a guarded update of the stopwatch record followed by a
    fresh checksum. None of them consults the governance gate. The effect of
    each operation on the record is the function `Step`; the methods are
    proved against it, and the invariant "paused only while running" is
    proved about it. */
module DopStopwatch {
  import opened DopTypes
  import DopCore

  /** The operations that change a stopwatch record; `Update` is the
      stopwatch branch of the core's update step. */
  datatype Op =
    | Start(now: TimeData)
    | Stop
    | Pause
    | Reset
    | Lap
    | Update(now: TimeData, ops: TimeOps)

  /** The effect of one operation on the record. */
  function Step(w: StopwatchData, op: Op): (r: StopwatchData)
    ensures Consistent(w) ==> Consistent(r)
    ensures !w.isRunning && !op.Start? && !op.Reset? ==> !r.isRunning && r.lapCount == w.lapCount
  {
    match op
    case Start(now) =>
      if w.isRunning then w else w.(startTime := now, isRunning := true, isPaused := false)
    case Stop => w.(isRunning := false, isPaused := false)
    case Pause => if w.isRunning then w.(isPaused := true) else w
    case Reset => w.(isRunning := false, isPaused := false, lapCount := 0, elapsedTime := ZeroTime)
    case Lap => if w.isRunning && !w.isPaused then w.(lapCount := Wrap32(w.lapCount + 1)) else w
    case Update(now, ops) => DopCore.AdvanceStopwatch(w, now, ops)
  }

  /** The effect of a sequence of operations, first to last. */
  function Run(w: StopwatchData, trace: seq<Op>): StopwatchData
    decreases |trace|
  {
    if |trace| == 0 then w else Run(Step(w, trace[0]), trace[1..])
  }

  /** A stopwatch is only ever paused while it is running. */
  predicate Consistent(w: StopwatchData) {
    w.isPaused ==> w.isRunning
  }

  // ------------------------------------------------------------ the invariant

  /** A new stopwatch is consistent. */
  lemma InitialConsistent(now: TimeData)
    ensures DopCore.InitialData(Stopwatch, now).StopwatchPart?
    ensures Consistent(DopCore.InitialData(Stopwatch, now).stopwatch)
  {
  }

  /** Every operation, and so every sequence of them, keeps the stopwatch
      consistent. */
  lemma {:induction false} RunKeepsConsistent(w: StopwatchData, trace: seq<Op>)
    requires Consistent(w)
    ensures Consistent(Run(w, trace))
    decreases |trace|
  {
    if |trace| > 0 {
      RunKeepsConsistent(Step(w, trace[0]), trace[1..]);
    }
  }

  // ------------------------------------------------------- per-operation facts

  /** Starting a stopped stopwatch runs it unpaused from `now`; starting a
      running one changes nothing, so a second start is a no-op. */
  lemma StartFacts(w: StopwatchData, now: TimeData, later: TimeData)
    ensures !w.isRunning ==>
      var r := Step(w, Start(now));
      r.isRunning && !r.isPaused && r.startTime == now
      && r.elapsedTime == w.elapsedTime && r.lapCount == w.lapCount
    ensures w.isRunning ==> Step(w, Start(now)) == w
    ensures Step(Step(w, Start(now)), Start(later)) == Step(w, Start(now))
  {
  }

  /** Stopping leaves the stopwatch neither running nor paused, and keeps its
      elapsed time and laps. */
  lemma StopFacts(w: StopwatchData)
    ensures var r := Step(w, Stop);
      !r.isRunning && !r.isPaused && r.elapsedTime == w.elapsedTime && r.lapCount == w.lapCount
  {
  }

  /** Pausing takes effect exactly when the stopwatch runs. */
  lemma PauseFacts(w: StopwatchData)
    ensures Step(w, Pause).isPaused <==> w.isPaused || w.isRunning
    ensures Step(w, Pause).isRunning == w.isRunning
  {
  }

  /** A reset stopwatch is stopped, unpaused, has no laps and no elapsed time;
      resetting twice is resetting once. */
  lemma ResetFacts(w: StopwatchData)
    ensures var r := Step(w, Reset);
      !r.isRunning && !r.isPaused && r.lapCount == 0 && r.elapsedTime == ZeroTime
      && r.startTime == w.startTime
    ensures Step(Step(w, Reset), Reset) == Step(w, Reset)
  {
  }

  /** A lap is counted, by exactly one, if and only if the stopwatch is
      running and not paused (below the 32-bit limit, where the count wraps
      to zero). */
  lemma LapFacts(w: StopwatchData)
    requires w.lapCount < Two32 - 1
    ensures Step(w, Lap).lapCount == w.lapCount + 1 <==> w.isRunning && !w.isPaused
    ensures !(w.isRunning && !w.isPaused) ==> Step(w, Lap) == w
  {
  }

  /** A stopwatch that is not ticking ignores laps and updates, and stays so
      until it is started: along a trace without `Start`, a stopped
      stopwatch keeps its lap count unless it is reset. */
  lemma {:induction false} StoppedCountsNoLaps(w: StopwatchData, trace: seq<Op>)
    requires !w.isRunning
    requires forall i :: 0 <= i < |trace| ==> !trace[i].Start? && !trace[i].Reset?
    ensures !Run(w, trace).isRunning && Run(w, trace).lapCount == w.lapCount
    decreases |trace|
  {
    if |trace| > 0 {
      StoppedCountsNoLaps(Step(w, trace[0]), trace[1..]);
    }
  }

  // ------------------------------------------------------------------ methods

  /** `dop_stopwatch_start`. */
  method StopwatchStart(c: Component?, now: TimeData) returns (err: int)
    requires c != null ==> c.WellFormed()
    modifies c
    ensures !old(DopCore.HasKind(c, Stopwatch)) ==> err == InvalidParameter && (c != null ==> unchanged(c))
    ensures old(DopCore.HasKind(c, Stopwatch)) ==>
      && err == Success
      && c.data == StopwatchPart(Step(old(c.data).stopwatch, Start(now)))
      && c.metadata == old(c.metadata) && c.ChecksumMatches()
  {
    if c == null || c.metadata.kind != Stopwatch {
      return InvalidParameter;
    }
    var w := c.data.stopwatch;
    if !w.isRunning {
      w := w.(startTime := now, isRunning := true, isPaused := false);
    }
    DopCore.StoreData(c, StopwatchPart(w));
    return Success;
  }

  /** `dop_stopwatch_stop`. */
  method StopwatchStop(c: Component?) returns (err: int)
    requires c != null ==> c.WellFormed()
    modifies c
    ensures !old(DopCore.HasKind(c, Stopwatch)) ==> err == InvalidParameter && (c != null ==> unchanged(c))
    ensures old(DopCore.HasKind(c, Stopwatch)) ==>
      && err == Success
      && c.data == StopwatchPart(Step(old(c.data).stopwatch, Stop))
      && c.metadata == old(c.metadata) && c.ChecksumMatches()
  {
    if c == null || c.metadata.kind != Stopwatch {
      return InvalidParameter;
    }
    var w := c.data.stopwatch;
    w := w.(isRunning := false, isPaused := false);
    DopCore.StoreData(c, StopwatchPart(w));
    return Success;
  }

  /** `dop_stopwatch_pause`. */
  method StopwatchPause(c: Component?) returns (err: int)
    requires c != null ==> c.WellFormed()
    modifies c
    ensures !old(DopCore.HasKind(c, Stopwatch)) ==> err == InvalidParameter && (c != null ==> unchanged(c))
    ensures old(DopCore.HasKind(c, Stopwatch)) ==>
      && err == Success
      && c.data == StopwatchPart(Step(old(c.data).stopwatch, Pause))
      && c.metadata == old(c.metadata) && c.ChecksumMatches()
  {
    if c == null || c.metadata.kind != Stopwatch {
      return InvalidParameter;
    }
    var w := c.data.stopwatch;
    if w.isRunning {
      w := w.(isPaused := true);
    }
    DopCore.StoreData(c, StopwatchPart(w));
    return Success;
  }

  /** `dop_stopwatch_reset`: the elapsed time is zero-filled. */
  method StopwatchReset(c: Component?) returns (err: int)
    requires c != null ==> c.WellFormed()
    modifies c
    ensures !old(DopCore.HasKind(c, Stopwatch)) ==> err == InvalidParameter && (c != null ==> unchanged(c))
    ensures old(DopCore.HasKind(c, Stopwatch)) ==>
      && err == Success
      && c.data == StopwatchPart(Step(old(c.data).stopwatch, Reset))
      && c.metadata == old(c.metadata) && c.ChecksumMatches()
  {
    if c == null || c.metadata.kind != Stopwatch {
      return InvalidParameter;
    }
    var w := c.data.stopwatch;
    w := w.(isRunning := false, isPaused := false, lapCount := 0);
    w := w.(elapsedTime := ZeroTime);
    DopCore.StoreData(c, StopwatchPart(w));
    return Success;
  }

  /** `dop_stopwatch_lap`: the 32-bit lap counter is incremented while ticking. */
  method StopwatchLap(c: Component?) returns (err: int)
    requires c != null ==> c.WellFormed()
    modifies c
    ensures !old(DopCore.HasKind(c, Stopwatch)) ==> err == InvalidParameter && (c != null ==> unchanged(c))
    ensures old(DopCore.HasKind(c, Stopwatch)) ==>
      && err == Success
      && c.data == StopwatchPart(Step(old(c.data).stopwatch, Lap))
      && c.metadata == old(c.metadata) && c.ChecksumMatches()
  {
    if c == null || c.metadata.kind != Stopwatch {
      return InvalidParameter;
    }
    var w := c.data.stopwatch;
    if w.isRunning && !w.isPaused {
      w := w.(lapCount := Wrap32(w.lapCount + 1));
    }
    DopCore.StoreData(c, StopwatchPart(w));
    return Success;
  }
}
