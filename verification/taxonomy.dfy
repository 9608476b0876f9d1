/** The taxonomy test framework (include/taxonomy_testing.h): three isolation
    levels, the test-mode flags each level enables, the gate states each
    level accepts, the preflight verdict, and the level and access names.
    The stress, memory-load and clock-precision drivers are not part of
    this model. */
module Taxonomy {
  import opened DopTypes

  // ------------------------------------------------------------ enumerations

  const LevelIsolated: int := 1
  const LevelClosed: int := 2
  const LevelOpen: int := 3

  predicate IsLevel(level: int) {
    LevelIsolated <= level <= LevelOpen
  }

  const ModePreflight: bv32 := 0x01
  const ModeMemoryOnly: bv32 := 0x02
  const ModeStress: bv32 := 0x04
  const ModeProduction: bv32 := 0x08
  const ModeIntegration: bv32 := 0x10

  const AccessPublic: int := 1
  const AccessPrivate: int := 2
  const AccessProtected: int := 3

  predicate IsAccess(access: int) {
    AccessPublic <= access <= AccessProtected
  }

  // ------------------------------------------------------ the decision tables

  /** The test modes a level enables: every level runs preflight; only the
      isolated level is memory-only, only the open level reaches production,
      and no level enables stress. An unknown level keeps the zero flags. */
  function ModeFlagsFor(level: int): (f: bv32)
    ensures IsLevel(level) ==> f & ModePreflight == ModePreflight
    ensures !IsLevel(level) ==> f == 0
    ensures f & ModeStress == 0
    ensures f & ModeMemoryOnly != 0 <==> level == LevelIsolated
    ensures f & ModeIntegration != 0 <==> level == LevelClosed || level == LevelOpen
    ensures f & ModeProduction != 0 <==> level == LevelOpen
    ensures f & !(ModePreflight | ModeMemoryOnly | ModeStress | ModeProduction | ModeIntegration) == 0
  {
    if level == LevelIsolated then ModePreflight | ModeMemoryOnly
    else if level == LevelClosed then ModePreflight | ModeIntegration
    else if level == LevelOpen then ModePreflight | ModeIntegration | ModeProduction
    else 0
  }

  /** The component tag a level writes into the context; an unknown level
      leaves the zero-filled tag empty. */
  function TagFor(level: int): (tag: string)
    ensures IsLevel(level) ==> tag == LevelToString(level)
    ensures !IsLevel(level) ==> tag == ""
  {
    if level == LevelIsolated then "isolated"
    else if level == LevelClosed then "closed"
    else if level == LevelOpen then "open"
    else ""
  }

  /** Which gate states a level accepts: the isolated level an ISOLATED or
      CLOSED gate, the closed level anything but ISOLATED, the open level
      only OPEN; an unknown level none. */
  function LevelAccepts(level: int, gate: GateState): (ok: bool)
    ensures ok ==> IsLevel(level)
    ensures level == LevelIsolated ==> (ok <==> gate != Open)
    ensures level == LevelClosed ==> (ok <==> gate != Isolated)
    ensures level == LevelOpen ==> (ok <==> gate == Open)
  {
    match gate
    case Isolated => level == LevelIsolated
    case Closed => level == LevelIsolated || level == LevelClosed
    case Open => level == LevelClosed || level == LevelOpen
  }

  /** `taxonomy_validate_isolation_level`: INVALID_PARAMETER for NULL,
      SUCCESS when the level accepts the component's gate, INVALID_STATE
      otherwise. It changes nothing. */
  function ValidateIsolationLevel(c: Component?, level: int): (err: int)
    reads c
    ensures c == null ==> err == InvalidParameter
    ensures c != null ==> (err == Success <==> LevelAccepts(level, c.metadata.gate))
    ensures c != null && err != Success ==> err == InvalidState
  {
    if c == null then InvalidParameter
    else if LevelAccepts(level, c.metadata.gate) then Success
    else InvalidState
  }

  /** Every gate state satisfies exactly one of the isolated and the open
      level, and at least one of the isolated and the closed level. */
  lemma LevelsCoverGates(gate: GateState)
    ensures LevelAccepts(LevelIsolated, gate) != LevelAccepts(LevelOpen, gate)
    ensures LevelAccepts(LevelIsolated, gate) || LevelAccepts(LevelClosed, gate)
  {
  }

  /** A gate is accessible exactly when the open level accepts it. */
  lemma OpenLevelIsAccessibility(gate: GateState)
    ensures LevelAccepts(LevelOpen, gate) <==> gate == Open
  {
  }

  /** A component fresh from creation sits behind a CLOSED gate, so the
      isolated and the closed level accept it and the open level does not;
      once its gate is opened, the closed and the open level accept it. */
  lemma LevelsOfClosedAndOpenGates(level: int)
    ensures LevelAccepts(level, Closed) <==> level == LevelIsolated || level == LevelClosed
    ensures LevelAccepts(level, Open) <==> level == LevelClosed || level == LevelOpen
  {
  }

  // ------------------------------------------------------------ the names

  /** `taxonomy_level_to_string`: total, "unknown" outside the three levels. */
  function LevelToString(level: int): (s: string)
    ensures s == "unknown" <==> !IsLevel(level)
  {
    if level == LevelIsolated then "isolated"
    else if level == LevelClosed then "closed"
    else if level == LevelOpen then "open"
    else "unknown"
  }

  /** The level a name stands for. */
  function ParseLevel(s: string): (r: Option<int>)
    ensures r.Some? ==> IsLevel(r.value)
  {
    if s == "isolated" then Some(LevelIsolated)
    else if s == "closed" then Some(LevelClosed)
    else if s == "open" then Some(LevelOpen)
    else None
  }

  /** The level names are read back as the level, and only level names are. */
  lemma LevelNameRoundTrip(level: int, s: string)
    ensures IsLevel(level) ==> ParseLevel(LevelToString(level)) == Some(level)
    ensures ParseLevel(s) == Some(level) ==> LevelToString(level) == s
  {
  }

  /** `taxonomy_access_to_string`: total, "unknown" outside the three access levels. */
  function AccessToString(access: int): (s: string)
    ensures s == "unknown" <==> !IsAccess(access)
  {
    if access == AccessPublic then "public"
    else if access == AccessPrivate then "private"
    else if access == AccessProtected then "protected"
    else "unknown"
  }

  /** The access level a name stands for. */
  function ParseAccess(s: string): (r: Option<int>)
    ensures r.Some? ==> IsAccess(r.value)
  {
    if s == "public" then Some(AccessPublic)
    else if s == "private" then Some(AccessPrivate)
    else if s == "protected" then Some(AccessProtected)
    else None
  }

  /** The access names are read back as the access level, and only they are. */
  lemma AccessNameRoundTrip(access: int, s: string)
    ensures IsAccess(access) ==> ParseAccess(AccessToString(access)) == Some(access)
    ensures ParseAccess(s) == Some(access) ==> AccessToString(access) == s
  {
  }

  // ------------------------------------------------------------ test context

  class TestContext {
    var level: int
    var modeFlags: bv32
    var componentTag: string
    var startTimestamp: u64
    var preflightDurationMs: u64
    var memoryLoaded: bool
    var stressEnabled: bool
    var iterationCount: u32

    /** A zero-filled context. */
    constructor ()
      ensures level == 0 && modeFlags == 0 && componentTag == "" && startTimestamp == 0
      ensures preflightDurationMs == 0 && !memoryLoaded && !stressEnabled && iterationCount == 0
    {
      level := 0;
      modeFlags := 0;
      componentTag := "";
      startTimestamp := 0;
      preflightDurationMs := 0;
      memoryLoaded := false;
      stressEnabled := false;
      iterationCount := 0;
    }
  }

  /** `taxonomy_init_test_context`: INVALID_PARAMETER for NULL. Otherwise the
      context is zeroed, the level and the start stamp (seconds times 1000,
      in 64 bits) are stored, and the level's tag and flags are written; an
      unknown level still gets stored before INVALID_PARAMETER is returned.
      `clockSeconds` is what `time(NULL)` reports. */
  method InitTestContext(ctx: TestContext?, level: int, clockSeconds: u64) returns (err: int)
    modifies ctx
    ensures ctx == null ==> err == InvalidParameter
    ensures ctx != null ==>
      && (err == Success <==> IsLevel(level))
      && (err != Success ==> err == InvalidParameter)
      && ctx.level == level
      && ctx.modeFlags == ModeFlagsFor(level)
      && ctx.componentTag == TagFor(level)
      && ctx.startTimestamp == Wrap64(clockSeconds * 1000)
      && ctx.preflightDurationMs == 0
      && !ctx.memoryLoaded && !ctx.stressEnabled && ctx.iterationCount == 0
  {
    if ctx == null {
      return InvalidParameter;
    }
    ctx.modeFlags, ctx.componentTag, ctx.preflightDurationMs := 0, "", 0;
    ctx.level := level;
    ctx.startTimestamp := Wrap64(clockSeconds * 1000);
    ctx.memoryLoaded := false;
    ctx.stressEnabled := false;
    ctx.iterationCount := 0;
    if level == LevelIsolated {
      ctx.componentTag := "isolated";
      ctx.modeFlags := ModePreflight | ModeMemoryOnly;
    } else if level == LevelClosed {
      ctx.componentTag := "closed";
      ctx.modeFlags := ModePreflight | ModeIntegration;
    } else if level == LevelOpen {
      ctx.componentTag := "open";
      ctx.modeFlags := ModePreflight | ModeIntegration | ModeProduction;
    } else {
      return InvalidParameter;
    }
    return Success;
  }

  // ------------------------------------------------------------ preflight

  class PreflightResult {
    var componentIntegrityPassed: bool
    var memoryAllocationPassed: bool
    var isolationBoundaryPassed: bool
    var dependencyCheckPassed: bool
    var executionTimeMs: u64
    var memoryUsageKb: u32

    /** A zero-filled result. */
    constructor ()
      ensures !componentIntegrityPassed && !memoryAllocationPassed
      ensures !isolationBoundaryPassed && !dependencyCheckPassed
      ensures executionTimeMs == 0 && memoryUsageKb == 0
    {
      componentIntegrityPassed := false;
      memoryAllocationPassed := false;
      isolationBoundaryPassed := false;
      dependencyCheckPassed := false;
      executionTimeMs := 0;
      memoryUsageKb := 0;
    }
  }

  /** The elapsed time between two `time(NULL)` readings, each scaled to
      milliseconds and subtracted in unsigned 64-bit arithmetic. */
  function ElapsedMs(startSeconds: u64, endSeconds: u64): (ms: u64)
    ensures startSeconds <= endSeconds && endSeconds * 1000 < Two64 ==>
      ms == (endSeconds - startSeconds) * 1000
  {
    Wrap64(Wrap64(endSeconds * 1000) - Wrap64(startSeconds * 1000))
  }

  /** The preflight verdict: the conjunction of the memory, isolation and
      dependency checks. */
  function PreflightVerdict(memoryPassed: bool, isolationPassed: bool, dependencyPassed: bool): bool {
    memoryPassed && isolationPassed && dependencyPassed
  }

  /** Since the isolation check always passes and the dependency check passes
      exactly for a known level, preflight passes exactly when the probe
      allocation succeeded and the context's level is known. */
  lemma PreflightPassesIff(allocationSucceeded: bool, level: int)
    ensures PreflightVerdict(allocationSucceeded, true, IsLevel(level))
      <==> allocationSucceeded && IsLevel(level)
  {
  }

  /** `taxonomy_run_preflight_tests`: INVALID_PARAMETER when the context or
      the result is NULL. Otherwise the result is zeroed and filled in: the
      memory check records whether the 1 MiB probe allocation succeeded
      (`allocationSucceeded`), the isolation check passes, the dependency
      check passes for a known level, the verdict is their conjunction, the
      execution time is the difference of the two clock readings and is also
      stored in the context. SUCCESS iff the verdict holds, INVALID_STATE
      otherwise. */
  method RunPreflightTests(ctx: TestContext?, result: PreflightResult?, allocationSucceeded: bool,
                           startSeconds: u64, endSeconds: u64) returns (err: int)
    modifies ctx, result
    ensures ctx == null || result == null ==>
      err == InvalidParameter && (ctx != null ==> unchanged(ctx)) && (result != null ==> unchanged(result))
    ensures ctx != null && result != null ==>
      && result.memoryAllocationPassed == allocationSucceeded
      && result.memoryUsageKb == (if allocationSucceeded then 1024 else 0)
      && result.isolationBoundaryPassed
      && result.dependencyCheckPassed == IsLevel(ctx.level)
      && result.componentIntegrityPassed == PreflightVerdict(result.memoryAllocationPassed,
           result.isolationBoundaryPassed, result.dependencyCheckPassed)
      && result.executionTimeMs == ElapsedMs(startSeconds, endSeconds)
      && (err == Success <==> result.componentIntegrityPassed)
      && (err != Success ==> err == InvalidState)
    ensures ctx != null && result != null ==>
      && ctx.preflightDurationMs == ElapsedMs(startSeconds, endSeconds)
      && ctx.level == old(ctx.level) && ctx.modeFlags == old(ctx.modeFlags)
      && ctx.componentTag == old(ctx.componentTag) && ctx.startTimestamp == old(ctx.startTimestamp)
      && ctx.memoryLoaded == old(ctx.memoryLoaded) && ctx.stressEnabled == old(ctx.stressEnabled)
      && ctx.iterationCount == old(ctx.iterationCount)
  {
    if ctx == null || result == null {
      return InvalidParameter;
    }
    result.componentIntegrityPassed, result.memoryAllocationPassed := false, false;
    result.isolationBoundaryPassed, result.dependencyCheckPassed := false, false;
    result.executionTimeMs, result.memoryUsageKb := 0, 0;
    var startTime: int := Wrap64(startSeconds * 1000);
    if allocationSucceeded {
      result.memoryAllocationPassed := true;
      result.memoryUsageKb := 1024;
    }
    result.isolationBoundaryPassed := true;
    if ctx.level == LevelIsolated || ctx.level == LevelClosed || ctx.level == LevelOpen {
      result.dependencyCheckPassed := true;
    }
    result.componentIntegrityPassed := result.memoryAllocationPassed
      && result.isolationBoundaryPassed && result.dependencyCheckPassed;
    var endTime: int := Wrap64(endSeconds * 1000);
    result.executionTimeMs := Wrap64(endTime - startTime);
    ctx.preflightDurationMs := result.executionTimeMs;
    return if result.componentIntegrityPassed then Success else InvalidState;
  }
}
