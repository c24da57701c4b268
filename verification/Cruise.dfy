/**
 CruiseControl of autonomy.rs: the step, byte and retry budgets of an automatic cruise.
 Each method of the class is proved against a function on the control's value.
 */
module Cruise {
  import opened Outcome
  import opened Arithmetic

  const AUTO_RETRY_LIMIT: nat := 5
  const HARD_AUTO_MAX_STEPS: nat := 128
  const MIN_AUTO_DURATION_SECS: nat := 10
  const HARD_AUTO_DURATION_SECS: nat := 1_800
  const U8_MAX: nat := 255

  datatype Phase = Stopped | CheckingSdr | WaitingForPlanner | WaitingForApproval | Executing | WaitingToRetry

  datatype StopReason =
    | OperatorStopped | SdrRetryExhausted | PlannerRetryExhausted | StepBudgetExhausted | DurationBudgetExhausted
    | ByteBudgetExhausted | ApprovalRequired | UnsupportedAction | PlannerRequestedStop | Fault

  datatype Control = Control(
    automatic: bool, active: bool, phase: Phase, startedAt: Option<nat>,
    steps: nat, used: nat, maxBytes: nat, maxSteps: nat, maxDurationMs: nat,
    sdrRetries: nat, plannerRetries: nat, stopReason: Option<StopReason>)

  const DEFAULT := Control(false, false, Stopped, None, 0, 0, 0, 8, 120_000, 0, 0, None)

  function SatAdd(a: nat, b: nat, max: nat): nat { if a + b > max then max else a + b }

  function Halt(c: Control, reason: StopReason): Control { c.(active := false, phase := Stopped, stopReason := Some(reason)) }

  predicate StartArgsOk(maxBytes: nat, maxSteps: nat, maxSecs: nat) {
    maxBytes != 0 && 1 <= maxSteps <= HARD_AUTO_MAX_STEPS && MIN_AUTO_DURATION_SECS <= maxSecs <= HARD_AUTO_DURATION_SECS
  }

  function Begin(c: Control, maxBytes: nat, maxSteps: nat, maxSecs: nat, now: nat): Control {
    if StartArgsOk(maxBytes, maxSteps, maxSecs) then
      Control(true, true, CheckingSdr, Some(now), 0, 0, maxBytes, maxSteps, maxSecs * 1_000, 0, 0, None)
    else c
  }

  function InPhase(c: Control, phase: Phase): Control { if c.active then c.(phase := phase) else c }

  function SdrMissing(c: Control): Control {
    var n := SatAdd(c.sdrRetries, 1, U8_MAX);
    var w := c.(sdrRetries := n, phase := WaitingToRetry);
    if n >= AUTO_RETRY_LIMIT then Halt(w, SdrRetryExhausted) else w
  }

  function PlannerMissing(c: Control): Control {
    var n := SatAdd(c.plannerRetries, 1, U8_MAX);
    var w := c.(plannerRetries := n, phase := WaitingToRetry);
    if n >= AUTO_RETRY_LIMIT then Halt(w, PlannerRetryExhausted) else w
  }

  function Executed(c: Control, bytes: nat): Control {
    var w := c.(steps := SatAdd(c.steps, 1, U8_MAX), used := SatAdd(c.used, bytes, U64_MAX));
    if w.steps >= w.maxSteps then Halt(w, StepBudgetExhausted)
    else if w.used >= w.maxBytes then Halt(w, ByteBudgetExhausted)
    else w.(phase := CheckingSdr)
  }

  function Remaining(c: Control): nat { if c.maxBytes >= c.used then c.maxBytes - c.used else 0 }

  function Timed(c: Control, now: nat): Control {
    if c.active && c.startedAt.Some? && (if now >= c.startedAt.value then now - c.startedAt.value else 0) >= c.maxDurationMs
    then Halt(c, DurationBudgetExhausted) else c
  }

  // An active cruise is strictly within every budget.
  predicate WithinBudgets(c: Control) {
    c.active ==>
      c.automatic && c.steps < c.maxSteps && c.used < c.maxBytes
      && c.sdrRetries < AUTO_RETRY_LIMIT && c.plannerRetries < AUTO_RETRY_LIMIT
  }

  // Every transition keeps it, whatever its arguments and whether the cruise is active or not: an active cruise
  // after the call was active before it, or has just been started.
  lemma TransitionsKeepBudgets(c: Control, bytes: nat, maxBytes: nat, maxSteps: nat, maxSecs: nat, now: nat, phase: Phase,
                               reason: StopReason)
    requires WithinBudgets(c)
    ensures WithinBudgets(Begin(c, maxBytes, maxSteps, maxSecs, now)) && WithinBudgets(Halt(c, reason))
    ensures WithinBudgets(InPhase(c, phase)) && WithinBudgets(SdrMissing(c)) && WithinBudgets(PlannerMissing(c))
    ensures WithinBudgets(c.(sdrRetries := 0)) && WithinBudgets(c.(plannerRetries := 0))
    ensures c.active ==> WithinBudgets(Executed(c, bytes))
    ensures WithinBudgets(Timed(c, now))
  {
  }

  // ----- how long a cruise lasts -----

  // The calls made on a cruise after its start.
  datatype Op =
    | SdrFound | SdrLost | PlannerAnswered | PlannerSilent | Ran(bytes: nat) | Enter(phase: Phase) | Clock(now: nat)
    | Stopping(reason: StopReason)

  function Called(c: Control, op: Op): Control {
    match op
    case SdrFound => c.(sdrRetries := 0)
    case SdrLost => SdrMissing(c)
    case PlannerAnswered => c.(plannerRetries := 0)
    case PlannerSilent => PlannerMissing(c)
    case Ran(bytes) => Executed(c, bytes)
    case Enter(phase) => InPhase(c, phase)
    case Clock(now) => Timed(c, now)
    case Stopping(reason) => Halt(c, reason)
  }

  function After(c: Control, ops: seq<Op>): Control {
    if ops == [] then c else Called(After(c, ops[..|ops| - 1]), ops[|ops| - 1])
  }

  // The executions of a run, their bytes, and the misses since the radio or the planner was last there.
  function Runs(ops: seq<Op>): nat {
    if ops == [] then 0 else Runs(ops[..|ops| - 1]) + (if ops[|ops| - 1].Ran? then 1 else 0)
  }
  function Bytes(ops: seq<Op>): nat {
    if ops == [] then 0 else Bytes(ops[..|ops| - 1]) + (if ops[|ops| - 1].Ran? then ops[|ops| - 1].bytes else 0)
  }
  function SdrMisses(ops: seq<Op>): nat {
    if ops == [] || ops[|ops| - 1].SdrFound? then 0
    else SdrMisses(ops[..|ops| - 1]) + (if ops[|ops| - 1].SdrLost? then 1 else 0)
  }
  function PlannerMisses(ops: seq<Op>): nat {
    if ops == [] || ops[|ops| - 1].PlannerAnswered? then 0
    else PlannerMisses(ops[..|ops| - 1]) + (if ops[|ops| - 1].PlannerSilent? then 1 else 0)
  }

  // A limit is reached at the end of `ops`, or its last call reads the clock too late or stops the cruise.
  predicate Exhausted(ops: seq<Op>, maxBytes: nat, maxSteps: nat, deadline: nat) {
    || Runs(ops) >= maxSteps || Bytes(ops) >= maxBytes || SdrMisses(ops) >= 5 || PlannerMisses(ops) >= 5
    || (ops != [] && (ops[|ops| - 1].Stopping? || (ops[|ops| - 1].Clock? && ops[|ops| - 1].now >= deadline)))
  }

  // While the cruise is active its counters are those of the calls, and its limits those of its start.
  ghost predicate Counts(c: Control, ops: seq<Op>, maxBytes: nat, maxSteps: nat, startedAt: nat, maxSecs: nat) {
    && c.maxBytes == maxBytes && c.maxSteps == maxSteps && c.startedAt == Some(startedAt) && c.maxDurationMs == maxSecs * 1_000
    && (c.active ==>
          && c.steps == Runs(ops) && c.used == Bytes(ops) && c.sdrRetries == SdrMisses(ops)
          && c.plannerRetries == PlannerMisses(ops))
    && (c.active <==> forall n :: 0 <= n <= |ops| ==> !Exhausted(ops[..n], maxBytes, maxSteps, startedAt + maxSecs * 1_000))
  }

  lemma CallCounts(c: Control, ops: seq<Op>, op: Op, maxBytes: nat, maxSteps: nat, startedAt: nat, maxSecs: nat)
    requires StartArgsOk(maxBytes, maxSteps, maxSecs) && maxBytes <= U64_MAX
    requires Counts(c, ops, maxBytes, maxSteps, startedAt, maxSecs)
    ensures Counts(Called(c, op), ops + [op], maxBytes, maxSteps, startedAt, maxSecs)
  {
    var all, deadline := ops + [op], startedAt + maxSecs * 1_000;
    assert all[..|ops|] == ops && all[..|all|] == all;
    assert forall n :: 0 <= n <= |ops| ==> all[..n] == ops[..n];
    assert ops[..|ops|] == ops;
    CallSpends(c, ops, op, maxBytes, maxSteps, startedAt, maxSecs);
    assert Called(c, op).active <==> c.active && !Exhausted(all, maxBytes, maxSteps, deadline);
    if Called(c, op).active {
      forall n | 0 <= n <= |all| ensures !Exhausted(all[..n], maxBytes, maxSteps, deadline) {
        if n <= |ops| { assert all[..n] == ops[..n]; }
      }
    } else if c.active {
      assert Exhausted(all[..|all|], maxBytes, maxSteps, deadline);
    } else {
      var n :| 0 <= n <= |ops| && Exhausted(ops[..n], maxBytes, maxSteps, deadline);
      assert Exhausted(all[..n], maxBytes, maxSteps, deadline);
    }
  }

  lemma CallSpends(c: Control, ops: seq<Op>, op: Op, maxBytes: nat, maxSteps: nat, startedAt: nat, maxSecs: nat)
    requires StartArgsOk(maxBytes, maxSteps, maxSecs) && maxBytes <= U64_MAX
    requires c.maxBytes == maxBytes && c.maxSteps == maxSteps && c.startedAt == Some(startedAt)
    requires c.maxDurationMs == maxSecs * 1_000
    requires c.active ==> c.steps == Runs(ops) && c.used == Bytes(ops) && c.sdrRetries == SdrMisses(ops)
                          && c.plannerRetries == PlannerMisses(ops)
    requires c.active ==> !Exhausted(ops, maxBytes, maxSteps, startedAt + maxSecs * 1_000)
    ensures Called(c, op).active <==> c.active && !Exhausted(ops + [op], maxBytes, maxSteps, startedAt + maxSecs * 1_000)
    ensures Called(c, op).active ==>
              && Called(c, op).steps == Runs(ops + [op]) && Called(c, op).used == Bytes(ops + [op])
              && Called(c, op).sdrRetries == SdrMisses(ops + [op]) && Called(c, op).plannerRetries == PlannerMisses(ops + [op])
  {
    assert (ops + [op])[..|ops|] == ops;
  }

  // A cruise is active after some calls exactly as long as nothing has ended it: no limit of its start was reached,
  // neither the radio nor the planner missed five times in a row, the clock was not read at or past the deadline,
  // and nobody stopped it.
  lemma {:induction false} CruiseLasts(c: Control, ops: seq<Op>, maxBytes: nat, maxSteps: nat, maxSecs: nat, now: nat)
    requires StartArgsOk(maxBytes, maxSteps, maxSecs) && maxBytes <= U64_MAX
    ensures Counts(After(Begin(c, maxBytes, maxSteps, maxSecs, now), ops), ops, maxBytes, maxSteps, now, maxSecs)
  {
    if ops != [] {
      var init, op := ops[..|ops| - 1], ops[|ops| - 1];
      CruiseLasts(c, init, maxBytes, maxSteps, maxSecs, now);
      CallCounts(After(Begin(c, maxBytes, maxSteps, maxSecs, now), init), init, op, maxBytes, maxSteps, now, maxSecs);
      assert init + [op] == ops;
    }
  }

  class CruiseControl {
    var automatic: bool
    var active: bool
    var phase: Phase
    var startedAt: Option<nat>
    var steps: nat
    var used: nat
    var maxBytes: nat
    var maxSteps: nat
    var maxDurationMs: nat
    var sdrRetries: nat
    var plannerRetries: nat
    var stopReason: Option<StopReason>

    ghost function View(): Control
      reads this
    {
      Control(automatic, active, phase, startedAt, steps, used, maxBytes, maxSteps, maxDurationMs, sdrRetries, plannerRetries,
              stopReason)
    }

    constructor ()
      ensures View() == DEFAULT
    {
      automatic, active, phase, startedAt := false, false, Stopped, None;
      steps, used, maxBytes, maxSteps, maxDurationMs := 0, 0, 0, 8, 120_000;
      sdrRetries, plannerRetries, stopReason := 0, 0, None;
    }

    method Start(maxBytes: nat, maxSteps: nat, maxSecs: nat, now: nat) returns (ok: bool)
      modifies this
      ensures ok <==> maxBytes > 0 && 1 <= maxSteps <= 128 && 10 <= maxSecs <= 1_800
      ensures View() == Begin(old(View()), maxBytes, maxSteps, maxSecs, now)
    {
      if maxBytes == 0 { return false; }
      if !(1 <= maxSteps <= HARD_AUTO_MAX_STEPS) { return false; }
      if !(MIN_AUTO_DURATION_SECS <= maxSecs <= HARD_AUTO_DURATION_SECS) { return false; }
      automatic := true;
      active := true;
      phase := CheckingSdr;
      startedAt := Some(now);
      steps := 0;
      used := 0;
      this.maxBytes := maxBytes;
      this.maxSteps := maxSteps;
      maxDurationMs := maxSecs * 1_000;
      sdrRetries := 0;
      plannerRetries := 0;
      stopReason := None;
      ok := true;
    }

    method Stop(reason: StopReason)
      modifies this
      ensures View() == Halt(old(View()), reason)
    {
      active := false;
      phase := Stopped;
      stopReason := Some(reason);
    }

    method SwitchToStepApproval()
      modifies this
      ensures View() == Halt(old(View()).(automatic := false), OperatorStopped)
    {
      automatic := false;
      Stop(OperatorStopped);
    }

    method SetPhase(p: Phase)
      modifies this
      ensures View() == InPhase(old(View()), p)
    {
      if active { phase := p; }
    }

    method RecordSdrAvailable()
      modifies this
      ensures View() == old(View()).(sdrRetries := 0)
    {
      sdrRetries := 0;
    }

    method RecordSdrUnavailable() returns (retrying: bool)
      modifies this
      ensures View() == SdrMissing(old(View())) && retrying == (sdrRetries < AUTO_RETRY_LIMIT)
    {
      sdrRetries := SatAdd(sdrRetries, 1, U8_MAX);
      phase := WaitingToRetry;
      if sdrRetries >= AUTO_RETRY_LIMIT {
        Stop(SdrRetryExhausted);
        return false;
      }
      return true;
    }

    method RecordPlannerAction()
      modifies this
      ensures View() == old(View()).(plannerRetries := 0)
    {
      plannerRetries := 0;
    }

    method RecordPlannerMissing() returns (retrying: bool)
      modifies this
      ensures View() == PlannerMissing(old(View())) && retrying == (plannerRetries < AUTO_RETRY_LIMIT)
    {
      plannerRetries := SatAdd(plannerRetries, 1, U8_MAX);
      phase := WaitingToRetry;
      if plannerRetries >= AUTO_RETRY_LIMIT {
        Stop(PlannerRetryExhausted);
        return false;
      }
      return true;
    }

    method RecordExecution(bytes: nat)
      modifies this
      ensures View() == Executed(old(View()), bytes)
    {
      steps := SatAdd(steps, 1, U8_MAX);
      used := SatAdd(used, bytes, U64_MAX);
      if steps >= maxSteps {
        Stop(StepBudgetExhausted);
      } else if used >= maxBytes {
        Stop(ByteBudgetExhausted);
      } else {
        phase := CheckingSdr;
      }
    }

    method CheckDuration(now: nat) returns (stillActive: bool)
      modifies this
      ensures View() == Timed(old(View()), now) && stillActive == active
    {
      if active && startedAt.Some? {
        var elapsed := if now >= startedAt.value then now - startedAt.value else 0;
        if elapsed >= maxDurationMs { Stop(DurationBudgetExhausted); }
      }
      stillActive := active;
    }
  }
}
