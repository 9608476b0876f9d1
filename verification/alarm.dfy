/** The alarm component (src/components/alarm.c): set the alarm time, arm,
    disarm and snooze, each an update of the alarm record followed by a fresh
    checksum, and the read-only trigger query. Only setting the time consults
    the governance gate, and it does so after the type check. `Step` is the
    effect of each operation on the record; the invariant "triggered only
    while armed" is proved about it. */
module DopAlarm {
  import opened DopTypes
  import DopCore

  /** The operations that change an alarm record; `Update` is the alarm
      branch of the core's update step. */
  datatype Op =
    | SetTime(alarmTime: TimeData)
    | Arm
    | Disarm
    | Snooze(durationMs: u32)
    | Update(now: TimeData, ops: TimeOps)

  /** The effect of one operation on the record (for `SetTime`, once the gate
      has let it through). */
  function Step(a: AlarmData, op: Op): (r: AlarmData)
    ensures Consistent(a) ==> Consistent(r)
    ensures r.isArmed && !a.isArmed ==> op.Arm?
  {
    match op
    case SetTime(t) => a.(alarmTime := t)
    case Arm => a.(isArmed := true)
    case Disarm => a.(isArmed := false, isTriggered := false)
    case Snooze(ms) => a.(snoozeDurationMs := ms, isTriggered := false)
    case Update(now, ops) => DopCore.AdvanceAlarm(a, now, ops)
  }

  /** The effect of a sequence of operations, first to last. */
  function Run(a: AlarmData, trace: seq<Op>): AlarmData
    decreases |trace|
  {
    if |trace| == 0 then a else Run(Step(a, trace[0]), trace[1..])
  }

  /** An alarm is only ever triggered while it is armed. */
  predicate Consistent(a: AlarmData) {
    a.isTriggered ==> a.isArmed
  }

  // ------------------------------------------------------------ the invariant

  /** A new alarm is consistent. */
  lemma InitialConsistent(now: TimeData)
    ensures DopCore.InitialData(Alarm, now).AlarmPart?
    ensures Consistent(DopCore.InitialData(Alarm, now).alarm)
  {
  }

  /** Every operation, and so every sequence of them, keeps the alarm consistent. */
  lemma {:induction false} RunKeepsConsistent(a: AlarmData, trace: seq<Op>)
    requires Consistent(a)
    ensures Consistent(Run(a, trace))
    decreases |trace|
  {
    if |trace| > 0 {
      RunKeepsConsistent(Step(a, trace[0]), trace[1..]);
    }
  }

  // ------------------------------------------------------- per-operation facts

  /** Arming sets the armed flag and leaves the trigger as it was. */
  lemma ArmFacts(a: AlarmData)
    ensures var r := Step(a, Arm);
      r.isArmed && r.isTriggered == a.isTriggered && r.alarmTime == a.alarmTime
  {
  }

  /** Disarming clears both flags. */
  lemma DisarmFacts(a: AlarmData)
    ensures var r := Step(a, Disarm);
      !r.isArmed && !r.isTriggered && r.alarmTime == a.alarmTime
  {
  }

  /** Snoozing stores the duration and silences the alarm, which stays armed. */
  lemma SnoozeFacts(a: AlarmData, ms: u32)
    ensures var r := Step(a, Snooze(ms));
      r.snoozeDurationMs == ms && !r.isTriggered && r.isArmed == a.isArmed
      && r.alarmTime == a.alarmTime
  {
  }

  /** Setting the time stores it and leaves both flags alone. */
  lemma SetTimeFacts(a: AlarmData, t: TimeData)
    ensures var r := Step(a, SetTime(t));
      r.alarmTime == t && r.isArmed == a.isArmed && r.isTriggered == a.isTriggered
  {
  }

  /** A disarmed alarm stays silent until it is armed again: along a trace
      without `Arm`, it is never triggered. */
  lemma {:induction false} DisarmedStaysSilent(a: AlarmData, trace: seq<Op>)
    requires !a.isArmed && !a.isTriggered
    requires forall i :: 0 <= i < |trace| ==> !trace[i].Arm?
    ensures !Run(a, trace).isArmed && !Run(a, trace).isTriggered
    decreases |trace|
  {
    if |trace| > 0 {
      DisarmedStaysSilent(Step(a, trace[0]), trace[1..]);
    }
  }

  // ------------------------------------------------------------------ methods

  /** `dop_alarm_set_time`: INVALID_PARAMETER for NULL or a non-alarm, then
      GATE_CLOSED and no change unless the gate is OPEN. */
  method AlarmSetTime(c: Component?, alarmTime: TimeData) returns (err: int)
    requires c != null ==> c.WellFormed()
    modifies c
    ensures !old(DopCore.HasKind(c, Alarm)) ==> err == InvalidParameter && (c != null ==> unchanged(c))
    ensures old(DopCore.HasKind(c, Alarm)) && !old(DopCore.GateIsAccessible(c)) ==>
      err == GateClosed && unchanged(c)
    ensures old(DopCore.HasKind(c, Alarm)) && old(DopCore.GateIsAccessible(c)) ==>
      && err == Success
      && c.data == AlarmPart(Step(old(c.data).alarm, SetTime(alarmTime)))
      && c.metadata == old(c.metadata) && c.ChecksumMatches()
  {
    if c == null || c.metadata.kind != Alarm {
      return InvalidParameter;
    }
    if !DopCore.GateIsAccessible(c) {
      return GateClosed;
    }
    var a := c.data.alarm;
    a := a.(alarmTime := alarmTime);
    DopCore.StoreData(c, AlarmPart(a));
    return Success;
  }

  /** `dop_alarm_arm`: succeeds whatever the gate. */
  method AlarmArm(c: Component?) returns (err: int)
    requires c != null ==> c.WellFormed()
    modifies c
    ensures !old(DopCore.HasKind(c, Alarm)) ==> err == InvalidParameter && (c != null ==> unchanged(c))
    ensures old(DopCore.HasKind(c, Alarm)) ==>
      && err == Success
      && c.data == AlarmPart(Step(old(c.data).alarm, Arm))
      && c.metadata == old(c.metadata) && c.ChecksumMatches()
  {
    if c == null || c.metadata.kind != Alarm {
      return InvalidParameter;
    }
    var a := c.data.alarm;
    a := a.(isArmed := true);
    DopCore.StoreData(c, AlarmPart(a));
    return Success;
  }

  /** `dop_alarm_disarm`: succeeds whatever the gate. */
  method AlarmDisarm(c: Component?) returns (err: int)
    requires c != null ==> c.WellFormed()
    modifies c
    ensures !old(DopCore.HasKind(c, Alarm)) ==> err == InvalidParameter && (c != null ==> unchanged(c))
    ensures old(DopCore.HasKind(c, Alarm)) ==>
      && err == Success
      && c.data == AlarmPart(Step(old(c.data).alarm, Disarm))
      && c.metadata == old(c.metadata) && c.ChecksumMatches()
  {
    if c == null || c.metadata.kind != Alarm {
      return InvalidParameter;
    }
    var a := c.data.alarm;
    a := a.(isArmed := false);
    a := a.(isTriggered := false);
    DopCore.StoreData(c, AlarmPart(a));
    return Success;
  }

  /** `dop_alarm_is_triggered`: false for NULL or a component that is not an
      alarm, otherwise the stored trigger flag. */
  function AlarmIsTriggered(c: Component?): (r: bool)
    requires c != null ==> c.WellFormed()
    reads c
    ensures r ==> DopCore.HasKind(c, Alarm)
    ensures DopCore.HasKind(c, Alarm) ==> (r <==> c.data.alarm.isTriggered)
  {
    if c == null || c.metadata.kind != Alarm then false else c.data.alarm.isTriggered
  }

  /** `dop_alarm_snooze`: succeeds whatever the gate. */
  method AlarmSnooze(c: Component?, durationMs: u32) returns (err: int)
    requires c != null ==> c.WellFormed()
    modifies c
    ensures !old(DopCore.HasKind(c, Alarm)) ==> err == InvalidParameter && (c != null ==> unchanged(c))
    ensures old(DopCore.HasKind(c, Alarm)) ==>
      && err == Success
      && c.data == AlarmPart(Step(old(c.data).alarm, Snooze(durationMs)))
      && c.metadata == old(c.metadata) && c.ChecksumMatches()
  {
    if c == null || c.metadata.kind != Alarm {
      return InvalidParameter;
    }
    var a := c.data.alarm;
    a := a.(snoozeDurationMs := durationMs);
    a := a.(isTriggered := false);
    DopCore.StoreData(c, AlarmPart(a));
    return Success;
  }
}
