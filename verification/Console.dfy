/**
 The part of the operator console (sdr-agent.rs) that spends a cruise's budgets: plans
 that arrive, hardware actions that start and finish, the operator's commands and the
 timer, over CruiseControl and the policy of SweepPlan.
 */
module Console {
  import opened Outcome
  import opened Arithmetic
  import opened Cruise
  import Plans = SweepPlan

  // A sweep in flight; only planned ones count against the cruise.
  datatype Sweep = InitialSweep | CountedSweep(bytes: nat)

  // `requests` are the prompts the planner may still answer, by number.
  datatype App = App(
    cruise: Control, limits: Plans.Limits, sweep: Option<Sweep>, execution: Option<nat>, executorReady: bool,
    pending: Option<Proposal>, generation: Plans.U64, nextRequestId: Plans.U64, requests: map<nat, Plans.Request>,
    cycleActive: bool, planSeen: bool, renewDeferred: bool)

  datatype Proposal = Proposal(request: Plans.Request, action: Plans.Action)

  // What the clock and the foreign calls of one event answer; `observed` is what a prompt would tell the planner of
  // the radio and its candidates, and `observationOk` whether validate_request lets it pass.
  datatype World = World(now: nat, addressKnown: bool, healthy: bool, cancelled: bool, due: bool, gainDb: int,
                         observed: Plans.Request, observationOk: bool)

  datatype Event =
    | StartAuto(maxBytes: Option<Plans.U64>, maxSteps: nat, maxSecs: nat)
    | StartInitial(planOk: bool)
    | Submit | Queue
    | PlanProposed(generation: nat, requestId: nat, action: Plans.Action)
    | OtherPlan(generation: nat, requestId: nat, stops: bool)    // hold or stop, or an action without an executor
    | SweepFinished(ok: bool)
    | ExecutionFinished(written: Option<nat>)     // None: the execution failed
    | Approve | Reject | PollRenew | OperatorStop | StepMode | Timer | AgentEnd
    | PromptRefused(requestId: nat) | QueueRefused(requestId: nat)

  predicate InFlight(s: App) { s.sweep.Some? || s.execution.Some? }

  function WhenActive(s: App, c: Control): App { if s.cruise.active then s.(cruise := c) else s }

  predicate Accepted(limits: Plans.Limits, p: Proposal) {
    p.request.limits == limits && Plans.Accepted(p.request, p.action)
  }

  // The proposal answers an outstanding prompt of this session and passes the policy.
  predicate Answers(s: App, generation: nat, requestId: nat, action: Plans.Action) {
    generation == s.generation && requestId in s.requests && Plans.ValidateAction(s.requests[requestId], action).Ok?
  }

  predicate NeedsApproval(p: Proposal) { Plans.ValidateAction(p.request, p.action) == Ok(true) }

  // The bytes a planned sweep may receive, or None when validate_plan refuses it.
  function SweepBytes(p: Proposal, gainDb: int): Option<nat>
    requires !p.action.CaptureBoundedIq?
  {
    match Plans.ValidatePlan(Plans.PlanFor(p.request, p.action, gainDb, Plans.SURVEY_POINT_TIMEOUT_MS))
    case Err(_) => None
    case Ok(v) => Some(if p.action.SurveyBand? then |v.centersHz| * 4_096 * 4 else 4_096 * 4)
  }

  // start_planned_survey and start_candidate_inspection
  function StartSweep(s: App, p: Proposal, w: World): App
    requires !p.action.CaptureBoundedIq?
  {
    if InFlight(s) then s
    else if !w.addressKnown then WhenActive(s, Halt(s.cruise, Fault))
    else if !w.healthy then WhenActive(s, SdrMissing(s.cruise))
    else match SweepBytes(p, w.gainDb)
      case None => s
      case Some(bytes) =>
        if s.cruise.active && bytes > Remaining(s.cruise) then s.(cruise := Halt(s.cruise, ByteBudgetExhausted))
        else s.(sweep := Some(CountedSweep(bytes)), cruise := InPhase(s.cruise, Executing))
  }

  // start_execution, which does not ask whether a sweep is in flight
  function StartExecution(s: App, bytes: nat): App {
    if !s.executorReady then WhenActive(s, Halt(s.cruise, Fault))
    else s.(executorReady := false, execution := Some(bytes), cruise := InPhase(s.cruise, Executing))
  }

  function StartAction(s: App, p: Proposal, w: World): App {
    if p.action.CaptureBoundedIq? then StartExecution(s, p.action.samples * 4) else StartSweep(s, p, w)
  }

  // The plan_proposed event for an action that uses the radio.
  function HandlePlan(s: App, generation: nat, requestId: nat, action: Plans.Action, w: World): App {
    if Answers(s, generation, requestId, action) then Decided(Heard(s), Proposal(s.requests[requestId], action), w) else s
  }

  // What becomes of a validated plan: it waits for the operator, comes too late, or starts.
  function Decided(s: App, p: Proposal, w: World): App {
    if !s.cruise.automatic then (if s.pending.Some? then s else s.(pending := Some(p)))
    else if !s.cruise.active then s
    else if NeedsApproval(p) then s.(pending := Some(p), cruise := Halt(s.cruise, ApprovalRequired))
    else StartAction(s, p, w)
  }

  function Heard(s: App): App { s.(planSeen := true, cruise := s.cruise.(plannerRetries := 0)) }

  function HandleOther(s: App, generation: nat, requestId: nat, stops: bool): App {
    if generation != s.generation || requestId !in s.requests then s
    else
      var s1 := Heard(s);
      if s.cruise.automatic && s.cruise.active then
        s1.(cruise := Halt(s1.cruise, if stops then PlannerRequestedStop else UnsupportedAction))
      else s1
  }

  // The prompt submit and queue_model_input would send.
  function Prompt(s: App, w: World): Plans.Request {
    w.observed.(requestId := s.nextRequestId, generation := s.generation, limits := s.limits)
  }

  // Its number is taken even when validate_request refuses it.
  function Ask(s: App, w: World): (App, bool) {
    if s.nextRequestId == U64_MAX then (s, false)
    else
      var s1 := s.(nextRequestId := s.nextRequestId + 1);
      if Plans.ValidateLimits(s.limits).Some? || !w.observationOk then (s1, false)
      else (s1.(requests := s.requests[s.nextRequestId as nat := Prompt(s, w)]), true)
  }

  // submit
  function Submitted(s: App, w: World): App {
    if InFlight(s) || s.cycleActive then s
    else
      var (s1, sent) := Ask(s, w);
      if sent then s1.(cycleActive := true, planSeen := false) else s1
  }

  // queue_model_input
  function Queued(s: App, w: World): App {
    if !s.cycleActive || s.renewDeferred || InFlight(s) then s else Ask(s, w).0
  }

  // poll_sweep, when the worker has finished
  function FinishSweep(s: App, ok: bool, w: World): App {
    if s.sweep.None? then s
    else
      var s1 := s.(sweep := None);
      if ok && !w.healthy then WhenActive(s1, Halt(s.cruise, Fault))
      else if s.sweep.value.InitialSweep? then s1
      else if ok then WhenActive(s1, Executed(s.cruise, s.sweep.value.bytes))
      else WhenActive(s1, Halt(s.cruise, Fault))
  }

  // poll_execution; validate_capture_response turns more bytes than asked for into a failure
  function FinishExecution(s: App, written: Option<nat>, w: World): App {
    if s.execution.None? then s
    else
      var s1 := s.(execution := None, executorReady := true);
      if written.Some? && written.value <= s.execution.value then WhenActive(s1, Executed(s.cruise, written.value))
      else if s.cruise.active && !w.healthy then s1.(cruise := SdrMissing(s.cruise))
      else s1.(cruise := Halt(s.cruise, Fault))
  }

  predicate CanRenew(s: App) { !s.cycleActive && !InFlight(s) && s.generation < U64_MAX }

  // renew: a new generation, in which nothing asked or proposed before counts.
  function Renewed(s: App): App {
    if CanRenew(s) then s.(generation := s.generation + 1, pending := None, requests := map[], planSeen := false) else s
  }

  // stop
  function HaltAll(s: App, w: World): App {
    var s1 := WhenActive(s, Halt(s.cruise, OperatorStopped)).(renewDeferred := s.renewDeferred || s.cycleActive);
    if s1.sweep.Some? then (if w.cancelled then Renewed(s1.(sweep := None)) else s1)
    else if s1.execution.Some? then (if w.cancelled then Renewed(s1.(execution := None, executorReady := true)) else s1)
    else if s1.cycleActive then s1
    else Renewed(s1.(renewDeferred := false))
  }

  // The renewal a stop put off until the cycle has ended.
  function RenewLater(s: App): App {
    if s.renewDeferred && !s.cycleActive && !InFlight(s) then Renewed(s.(renewDeferred := false)) else s
  }

  function ToStepMode(s: App, w: World): App {
    if !s.cruise.automatic && !s.cruise.active then s
    else
      var busy := s.cycleActive || InFlight(s);
      var s1 := if busy then HaltAll(s, w) else s;
      var s2 := s1.(cruise := Halt(s1.cruise.(automatic := false), OperatorStopped));
      if busy then s2 else Renewed(s2)
  }

  function BeginAuto(s: App, maxBytes: Option<Plans.U64>, maxSteps: nat, maxSecs: nat, w: World): App {
    if !CanRenew(s) || s.pending.Some? then s
    else
      var budget := if maxBytes.Some? then maxBytes.value else SatMul(s.limits.maxIqBytes, maxSteps);
      if budget == 0 then s
      else
        var s1 := Renewed(s);
        s1.(cruise := Begin(s1.cruise, budget, maxSteps, maxSecs, w.now))
  }

  function SatMul(a: nat, b: nat): nat { if a * b > U64_MAX then U64_MAX else a * b }

  // advance_auto
  function Advance(s: App, w: World): App {
    if !s.cruise.active then s
    else
      var s1 := s.(cruise := Timed(s.cruise, w.now));
      if !s1.cruise.active then (if s.cycleActive || InFlight(s) then HaltAll(s1, w) else s1)
      else if s.cycleActive || InFlight(s) || s.pending.Some? || !w.due then s1
      else if !w.healthy then s1.(cruise := SdrMissing(InPhase(s1.cruise, CheckingSdr)))
      else Submitted(s1.(cruise := InPhase(s1.cruise.(sdrRetries := 0), WaitingForPlanner)), w)
  }

  function ApprovePending(s: App, w: World): App {
    if InFlight(s) || s.pending.None? then s else StartAction(s.(pending := None), s.pending.value, w)
  }

  // agent_end
  function CycleEnded(s: App): App {
    var s1 := s.(cycleActive := false, planSeen := false, requests := map[]);
    if s.planSeen then s1 else WhenActive(s1, PlannerMissing(s.cruise))
  }

  // A prompt the planner did not take.
  function NotTaken(s: App, requestId: nat): App {
    WhenActive(s.(cycleActive := false, planSeen := false, requests := s.requests - {requestId}), PlannerMissing(s.cruise))
  }

  function Step(s: App, e: Event, w: World): App {
    match e
    case StartAuto(maxBytes, maxSteps, maxSecs) => BeginAuto(s, maxBytes, maxSteps, maxSecs, w)
    case StartInitial(planOk) =>
      if InFlight(s) || s.cycleActive || !w.addressKnown || !w.healthy || !planOk then s else s.(sweep := Some(InitialSweep))
    case Submit => Submitted(s, w)
    case Queue => Queued(s, w)
    case PlanProposed(generation, requestId, action) => HandlePlan(s, generation, requestId, action, w)
    case OtherPlan(generation, requestId, stops) => HandleOther(s, generation, requestId, stops)
    case SweepFinished(ok) => FinishSweep(s, ok, w)
    case ExecutionFinished(written) => FinishExecution(s, written, w)
    case Approve => ApprovePending(s, w)
    case Reject => s.(pending := None)
    case PollRenew => RenewLater(s)
    case OperatorStop => HaltAll(s, w)
    case StepMode => ToStepMode(s, w)
    case Timer => Advance(s, w)
    case AgentEnd => CycleEnded(s)
    case PromptRefused(requestId) => NotTaken(s, requestId)
    case QueueRefused(requestId) => s.(requests := s.requests - {requestId})
  }

  // ----- what every event keeps -----

  // Every outstanding prompt was asked in this session under its number and limits.
  ghost predicate Asked(requests: map<nat, Plans.Request>, limits: Plans.Limits, generation: nat) {
    forall id {:trigger requests[id]} :: id in requests ==>
      requests[id].limits == limits && requests[id].requestId == id && requests[id].generation == generation
  }

  ghost predicate Outstanding(s: App) { Asked(s.requests, s.limits, s.generation) }

  ghost predicate Funded(c: Control) {
    WithinBudgets(c) && c.used <= U64_MAX && c.maxBytes <= U64_MAX && c.maxSteps <= HARD_AUTO_MAX_STEPS
  }

  // While a cruise is active nothing waits for approval; what waits has passed the policy.
  ghost predicate Gated(limits: Plans.Limits, active: bool, pending: Option<Proposal>) {
    (active ==> pending.None?) && (pending.Some? ==> Accepted(limits, pending.value))
  }

  // The actions in flight passed the policy, and during a cruise a capture is one that needs no approval.
  ghost predicate Flying(limits: Plans.Limits, active: bool, sweep: Option<Sweep>, execution: Option<nat>) {
    && (sweep.Some? && sweep.value.CountedSweep? ==> sweep.value.bytes <= limits.maxIqBytes)
    && (execution.Some? ==> execution.value <= if active then limits.autoApproveIqBytes else limits.maxIqBytes)
  }

  ghost predicate Sound(s: App) {
    && Plans.ValidateLimits(s.limits).None? && Funded(s.cruise)
    && Gated(s.limits, s.cruise.active, s.pending)
    && Flying(s.limits, s.cruise.active, s.sweep, s.execution)
  }

  predicate Counting(s: App) { s.sweep.Some? && s.sweep.value.CountedSweep? }

  // The bytes used, against a budget that one last action of at most `slack` bytes may overrun.
  predicate Fits(used: nat, maxBytes: nat, slack: nat) { used <= maxBytes || used < maxBytes + slack }
  predicate Spent(s: App, slack: nat) { Fits(s.cruise.used, s.cruise.maxBytes, slack) }

  lemma SweepBytesBound(p: Proposal, gainDb: int)
    requires !p.action.CaptureBoundedIq? && Plans.Accepted(p.request, p.action) && SweepBytes(p, gainDb).Some?
    ensures SweepBytes(p, gainDb).value <= p.request.limits.maxIqBytes
  {
    if p.action.SurveyBand? {
      Plans.SurveyRuns(p.request, p.action, gainDb, Plans.SURVEY_POINT_TIMEOUT_MS);
    }
  }

  // A capture the policy lets through without approval is small.
  lemma AutomaticIsSmall(p: Proposal)
    requires p.action.CaptureBoundedIq? && Plans.Accepted(p.request, p.action)
    ensures 0 < p.action.samples * 4 <= p.request.limits.maxIqBytes
    ensures !NeedsApproval(p) ==> p.action.samples * 4 <= p.request.limits.autoApproveIqBytes
  {
  }

  // The budget is touched only by actions that finish and by a new cruise.
  ghost predicate Keeps(s: App, after: App) {
    && Sound(after) && Outstanding(after) && after.limits == s.limits
    && after.cruise.used == s.cruise.used && after.cruise.maxBytes == s.cruise.maxBytes
  }

  lemma StartSweepKeeps(s: App, p: Proposal, w: World)
    requires Sound(s) && Outstanding(s) && Accepted(s.limits, p) && !p.action.CaptureBoundedIq?
    ensures Keeps(s, StartSweep(s, p, w))
  {
    if SweepBytes(p, w.gainDb).Some? { SweepBytesBound(p, w.gainDb); }
  }

  lemma StartExecutionKeeps(s: App, bytes: nat)
    requires Sound(s) && Outstanding(s) && Flying(s.limits, s.cruise.active, s.sweep, Some(bytes))
    ensures Keeps(s, StartExecution(s, bytes))
  {
  }

  lemma StartActionKeeps(s: App, p: Proposal, w: World)
    requires Sound(s) && Outstanding(s) && s.pending.None? && Accepted(s.limits, p)
    requires s.cruise.active ==> !NeedsApproval(p)
    ensures Keeps(s, StartAction(s, p, w))
  {
    if p.action.CaptureBoundedIq? {
      AutomaticIsSmall(p);
      StartExecutionKeeps(s, p.action.samples * 4);
    } else {
      StartSweepKeeps(s, p, w);
    }
  }

  lemma PlanKeeps(s: App, generation: nat, requestId: nat, action: Plans.Action, w: World)
    requires Sound(s) && Outstanding(s)
    ensures Keeps(s, HandlePlan(s, generation, requestId, action, w))
  {
    if Answers(s, generation, requestId, action) {
      var p := Proposal(s.requests[requestId], action);
      assert Accepted(s.limits, p);
      if s.cruise.active && !NeedsApproval(p) { StartActionKeeps(Heard(s), p, w); }
    }
  }

  lemma AskKeeps(s: App, w: World)
    requires Sound(s) && Outstanding(s)
    ensures Keeps(s, Ask(s, w).0) && Ask(s, w).0.cruise == s.cruise
  {
  }

  lemma ExecutedSpends(c: Control, bytes: nat)
    requires Funded(c) && c.active
    ensures var after := Executed(c, bytes);
            && Funded(after) && after.maxBytes == c.maxBytes && after.used == SatAdd(c.used, bytes, U64_MAX)
            && after.used <= c.used + bytes < c.maxBytes + bytes
  {
  }

  lemma MissingKeeps(c: Control, reason: StopReason)
    requires Funded(c)
    ensures Funded(SdrMissing(c)) && Funded(PlannerMissing(c)) && Funded(Halt(c, reason))
  {
  }

  lemma FinishSweepKeeps(s: App, ok: bool, w: World)
    requires Sound(s) && Outstanding(s)
    ensures var after := FinishSweep(s, ok, w);
            Sound(after) && Outstanding(after) && after.limits == s.limits
  {
    if s.sweep.Some? {
      MissingKeeps(s.cruise, Fault);
      assert Sound(s.(sweep := None));
      if s.cruise.active && Counting(s) { ExecutedSpends(s.cruise, s.sweep.value.bytes); }
    }
  }

  lemma FinishSweepSpends(s: App, ok: bool, w: World)
    requires Sound(s) && Spent(s, s.limits.maxIqBytes)
    ensures Spent(FinishSweep(s, ok, w), s.limits.maxIqBytes)
  {
    if s.cruise.active && Counting(s) { ExecutedSpends(s.cruise, s.sweep.value.bytes); }
  }

  lemma FinishExecutionKeeps(s: App, written: Option<nat>, w: World)
    requires Sound(s) && Outstanding(s)
    ensures var after := FinishExecution(s, written, w);
            Sound(after) && Outstanding(after) && after.limits == s.limits
  {
    MissingKeeps(s.cruise, Fault);
    if s.cruise.active && written.Some? { ExecutedSpends(s.cruise, written.value); }
    FinishExecutionLeaves(s, written, w);
  }

  lemma FinishExecutionLeaves(s: App, written: Option<nat>, w: World)
    ensures var after := FinishExecution(s, written, w);
            && after.limits == s.limits && after.requests == s.requests && after.generation == s.generation
            && after.nextRequestId == s.nextRequestId && after.pending == s.pending && after.sweep == s.sweep
            && (after.execution.None? || after.execution == s.execution)
  {
  }

  // A capture that finishes never breaks the tighter bound.
  lemma FinishExecutionSpends(s: App, written: Option<nat>, w: World, slack: nat)
    requires Sound(s) && Spent(s, slack) && slack >= s.limits.autoApproveIqBytes
    ensures Spent(FinishExecution(s, written, w), slack)
  {
    if s.cruise.active && written.Some? { ExecutedSpends(s.cruise, written.value); }
  }

  lemma RenewKeeps(s: App)
    requires Sound(s) && Outstanding(s)
    ensures Keeps(s, Renewed(s)) && Renewed(s).cruise == s.cruise
  {
  }

  lemma HaltKeeps(s: App, w: World)
    requires Sound(s) && Outstanding(s)
    ensures Keeps(s, HaltAll(s, w)) && !HaltAll(s, w).cruise.active
  {
    var s1 := WhenActive(s, Halt(s.cruise, OperatorStopped)).(renewDeferred := s.renewDeferred || s.cycleActive);
    assert Sound(s1) && Outstanding(s1);
    if s1.sweep.Some? { RenewKeeps(s1.(sweep := None)); }
    else if s1.execution.Some? { RenewKeeps(s1.(execution := None, executorReady := true)); }
    else { RenewKeeps(s1.(renewDeferred := false)); }
  }

  lemma StepModeKeeps(s: App, w: World)
    requires Sound(s) && Outstanding(s)
    ensures Keeps(s, ToStepMode(s, w))
  {
    HaltKeeps(s, w);
  }

  lemma TimerKeeps(s: App, w: World)
    requires Sound(s) && Outstanding(s)
    ensures Keeps(s, Advance(s, w))
  {
    var s1 := s.(cruise := Timed(s.cruise, w.now));
    if s.cruise.active {
      if !s1.cruise.active { HaltKeeps(s1, w); }
      else { AskKeeps(s1.(cruise := InPhase(s1.cruise.(sdrRetries := 0), WaitingForPlanner)), w); }
    }
  }

  lemma PlannerKeeps(s: App, e: Event, w: World)
    requires Sound(s) && Outstanding(s)
    requires e.Submit? || e.Queue? || e.OtherPlan? || e.AgentEnd? || e.PromptRefused? || e.QueueRefused?
    ensures Keeps(s, Step(s, e, w))
  {
    AskKeeps(s, w);
    MissingKeeps(s.cruise, Fault);
  }

  lemma OperatorKeeps(s: App, e: Event, w: World)
    requires Sound(s) && Outstanding(s) && (e.StartInitial? || e.Reject? || e.PollRenew?)
    ensures Keeps(s, Step(s, e, w))
  {
  }

  lemma BeginKeeps(s: App, maxBytes: Option<Plans.U64>, maxSteps: nat, maxSecs: nat, w: World)
    requires Sound(s) && Outstanding(s)
    ensures var after := BeginAuto(s, maxBytes, maxSteps, maxSecs, w);
            && Sound(after) && Outstanding(after) && after.limits == s.limits
            && (Keeps(s, after) || (after.cruise.used == 0 && !InFlight(after)))
  {
  }

  predicate Finishing(e: Event) { e.SweepFinished? || e.ExecutionFinished? || e.StartAuto? }

  // Everything but an action that finishes and a new cruise leaves the budget alone.
  lemma QuietKeeps(s: App, e: Event, w: World)
    requires Sound(s) && Outstanding(s) && !Finishing(e)
    ensures Keeps(s, Step(s, e, w))
  {
    match e
    case PlanProposed(generation, requestId, action) => PlanKeeps(s, generation, requestId, action, w);
    case Approve =>
      if s.pending.Some? && !InFlight(s) { StartActionKeeps(s.(pending := None), s.pending.value, w); }
    case OperatorStop => HaltKeeps(s, w);
    case StepMode => StepModeKeeps(s, w);
    case Timer => TimerKeeps(s, w);
    case StartInitial(_) => OperatorKeeps(s, e, w);
    case Reject => OperatorKeeps(s, e, w);
    case PollRenew => OperatorKeeps(s, e, w);
    case _ => PlannerKeeps(s, e, w);
  }

  lemma StepKeeps(s: App, e: Event, w: World)
    requires Sound(s) && Outstanding(s)
    ensures Sound(Step(s, e, w)) && Outstanding(Step(s, e, w)) && Step(s, e, w).limits == s.limits
    ensures Spent(s, s.limits.maxIqBytes) ==> Spent(Step(s, e, w), s.limits.maxIqBytes)
  {
    match e
    case SweepFinished(ok) =>
      FinishSweepKeeps(s, ok, w);
      if Spent(s, s.limits.maxIqBytes) { FinishSweepSpends(s, ok, w); }
    case ExecutionFinished(written) =>
      FinishExecutionKeeps(s, written, w);
      if Spent(s, s.limits.maxIqBytes) { FinishExecutionSpends(s, written, w, s.limits.maxIqBytes); }
    case StartAuto(maxBytes, maxSteps, maxSecs) => BeginKeeps(s, maxBytes, maxSteps, maxSecs, w);
    case _ => QuietKeeps(s, e, w);
  }

  // ----- the approval gate -----

  // A counted sweep or a capture is in flight that was not before.
  predicate TakesOff(s: App, after: App) {
    (Counting(after) && after.sweep != s.sweep) || (after.execution.Some? && after.execution != s.execution)
  }

  // What is in flight is this plan.
  predicate Carries(after: App, p: Proposal, w: World) {
    if p.action.CaptureBoundedIq? then after.execution == Some(p.action.samples * 4)
    else SweepBytes(p, w.gainDb).Some? && after.sweep == Some(CountedSweep(SweepBytes(p, w.gainDb).value))
  }

  // The operator approved the plan that was waiting.
  predicate OperatorStarts(s: App, e: Event, w: World, after: App) {
    e.Approve? && s.pending.Some? && Carries(after, s.pending.value, w)
  }

  // An active cruise took a plan that needs no approval.
  predicate CruiseStarts(s: App, e: Event, w: World, after: App) {
    && s.cruise.automatic && s.cruise.active && e.PlanProposed? && Answers(s, e.generation, e.requestId, e.action)
    && !NeedsApproval(Proposal(s.requests[e.requestId], e.action))
    && Carries(after, Proposal(s.requests[e.requestId], e.action), w)
  }

  lemma ActionCarries(s: App, p: Proposal, w: World)
    ensures TakesOff(s, StartAction(s, p, w)) ==> Carries(StartAction(s, p, w), p, w)
    ensures StartAction(s, p, w).pending == s.pending
  {
  }

  // Nothing takes off but by one of the two; in step mode, so, only what the operator approved.
  lemma ApprovalGate(s: App, e: Event, w: World)
    ensures var after := Step(s, e, w);
            TakesOff(s, after) ==> OperatorStarts(s, e, w, after) || CruiseStarts(s, e, w, after)
  {
    match e
    case PlanProposed(generation, requestId, action) =>
      if Answers(s, generation, requestId, action) { ActionCarries(Heard(s), Proposal(s.requests[requestId], action), w); }
    case Approve => if s.pending.Some? { ActionCarries(s.(pending := None), s.pending.value, w); }
    case Timer => TimerTakesNothing(s, w);
    case StepMode => StepModeTakesNothing(s, w);
    case _ => OthersTakeNothing(s, e, w);
  }

  lemma OthersTakeNothing(s: App, e: Event, w: World)
    requires !e.PlanProposed? && !e.Approve? && !e.Timer? && !e.StepMode?
    ensures !TakesOff(s, Step(s, e, w))
  {
  }

  lemma TimerTakesNothing(s: App, w: World)
    ensures !TakesOff(s, Advance(s, w))
  {
  }

  lemma StepModeTakesNothing(s: App, w: World)
    ensures !TakesOff(s, ToStepMode(s, w))
  {
  }

  // An accepted plan waits: in step mode whenever none is waiting yet, and in a cruise when it needs approval, which
  // also ends the cruise.
  lemma PlanWaits(s: App, generation: nat, requestId: nat, action: Plans.Action, w: World)
    requires Answers(s, generation, requestId, action) && s.pending.None?
    ensures var p := Proposal(s.requests[requestId], action);
            var after := Step(s, PlanProposed(generation, requestId, action), w);
            && (!s.cruise.automatic || (s.cruise.active && NeedsApproval(p)) ==>
                  && after.pending == Some(p) && after.sweep == s.sweep && after.execution == s.execution
                  && after.executorReady == s.executorReady && (s.cruise.automatic ==> !after.cruise.active))
            && (s.cruise.automatic && !s.cruise.active ==> after == Heard(s))
  {
  }

  // What waits takes off when the operator approves it, as does what a cruise may start on its own, once nothing else
  // is in flight and the radio answers.
  lemma PlanTakesOff(s: App, p: Proposal, w: World)
    requires Sound(s) && !InFlight(s) && s.executorReady && w.addressKnown && w.healthy
    requires p.action.CaptureBoundedIq? ||
             (SweepBytes(p, w.gainDb).Some? && (s.cruise.active ==> s.cruise.used + SweepBytes(p, w.gainDb).value <= s.cruise.maxBytes))
    ensures s.pending == Some(p) ==>
              var after := Step(s, Approve, w); TakesOff(s, after) && Carries(after, p, w) && after.pending.None?
    ensures forall generation, requestId ::
              Answers(s, generation, requestId, p.action) && s.requests[requestId] == p.request && s.cruise.automatic && s.cruise.active
              && !NeedsApproval(p) ==>
                var after := Step(s, PlanProposed(generation, requestId, p.action), w); TakesOff(s, after) && Carries(after, p, w)
  {
  }

  // An action that succeeds in an active cruise is one step and its own bytes.
  lemma ActionsCount(s: App, e: Event, w: World)
    requires s.cruise.active && w.healthy
    requires (e == SweepFinished(true) && Counting(s))
             || (e.ExecutionFinished? && s.execution.Some? && e.written.Some? && e.written.value <= s.execution.value)
    ensures var after := Step(s, e, w);
            && after.cruise.steps == SatAdd(s.cruise.steps, 1, U8_MAX)
            && after.cruise.used == SatAdd(s.cruise.used, if e.SweepFinished? then s.sweep.value.bytes else e.written.value, U64_MAX)
            && (e.SweepFinished? ==> after.sweep.None?) && (e.ExecutionFinished? ==> after.execution.None? && after.executorReady)
  {
  }

  // ----- prompts, generations and stops -----

  predicate Asks(s: App, w: World) {
    s.nextRequestId != U64_MAX && Plans.ValidateLimits(s.limits).None? && w.observationOk
  }

  // A prompt between two steps goes out, under its own number, exactly when limits and observation are in order; one
  // inside a cycle is queued in the same way.
  lemma PromptIsOutstanding(s: App, w: World)
    ensures var after := Step(s, Submit, w);
            && (after.cycleActive && !s.cycleActive <==> !InFlight(s) && !s.cycleActive && Asks(s, w))
            && (after.cycleActive && !s.cycleActive ==>
                  after == s.(requests := s.requests[s.nextRequestId as nat := Prompt(s, w)], nextRequestId := s.nextRequestId + 1,
                              cycleActive := true, planSeen := false))
    ensures var after := Step(s, Queue, w);
            s.cycleActive && !s.renewDeferred && !InFlight(s) && Asks(s, w) ==>
              after == s.(requests := s.requests[s.nextRequestId as nat := Prompt(s, w)], nextRequestId := s.nextRequestId + 1)
  {
  }

  // A plan of another generation, or for a prompt that is not outstanding, changes nothing.
  lemma StalePlanIsIgnored(s: App, generation: nat, requestId: nat, action: Plans.Action, stops: bool, w: World)
    requires generation != s.generation || requestId !in s.requests
    ensures Step(s, PlanProposed(generation, requestId, action), w) == s
    ensures Step(s, OtherPlan(generation, requestId, stops), w) == s
  {
  }

  // Hold, stop and unknown actions end an active automatic cruise; none of them starts anything.
  lemma OtherPlanEndsCruise(s: App, requestId: nat, stops: bool, w: World)
    requires requestId in s.requests
    ensures var after := Step(s, OtherPlan(s.generation, requestId, stops), w);
            && !TakesOff(s, after) && after.pending == s.pending && after.planSeen
            && !(after.cruise.automatic && after.cruise.active)
            && (s.cruise.automatic && s.cruise.active ==>
                  after.cruise.stopReason == Some(if stops then PlannerRequestedStop else UnsupportedAction))
  {
  }

  lemma ActionKeepsGeneration(s: App, p: Proposal, w: World)
    ensures StartAction(s, p, w).generation == s.generation
  {
  }

  lemma HaltGrows(s: App, w: World)
    ensures HaltAll(s, w).generation >= s.generation
  {
  }

  lemma AdvanceGrows(s: App, w: World)
    ensures Advance(s, w).generation >= s.generation
  {
    HaltGrows(s.(cruise := Timed(s.cruise, w.now)), w);
  }

  lemma StepModeGrows(s: App, w: World)
    ensures ToStepMode(s, w).generation >= s.generation
  {
    HaltGrows(s, w);
  }

  lemma OthersGrow(s: App, e: Event, w: World)
    requires !e.PlanProposed? && !e.Approve? && !e.OperatorStop? && !e.StepMode? && !e.Timer?
    ensures Step(s, e, w).generation >= s.generation
  {
  }

  // Generations only grow.
  lemma GenerationGrows(s: App, e: Event, w: World)
    ensures Step(s, e, w).generation >= s.generation
  {
    match e
    case PlanProposed(generation, requestId, action) =>
      if Answers(s, generation, requestId, action) {
        ActionKeepsGeneration(Heard(s), Proposal(s.requests[requestId], action), w);
      }
    case Approve => if s.pending.Some? { ActionKeepsGeneration(s.(pending := None), s.pending.value, w); }
    case OperatorStop => HaltGrows(s, w);
    case StepMode => StepModeGrows(s, w);
    case Timer => AdvanceGrows(s, w);
    case _ => OthersGrow(s, e, w);
  }

  // Once a session was renewed, in every run: no plan of a session before it is ever accepted again.
  lemma {:induction false} OldPlansAreDead(s: App, inputs: seq<Input>, generation: nat, requestId: nat, action: Plans.Action, w: World)
    requires generation < s.generation
    ensures var end := Run(s, inputs); Step(end, PlanProposed(generation, requestId, action), w) == end
    decreases |inputs|
  {
    if inputs == [] {
      StalePlanIsIgnored(s, generation, requestId, action, false, w);
    } else {
      GenerationGrows(s, inputs[0].event, inputs[0].world);
      OldPlansAreDead(Step(s, inputs[0].event, inputs[0].world), inputs[1..], generation, requestId, action, w);
    }
  }

  // The next session: nothing asked or proposed in this one is left.
  predicate Anew(s: App, after: App) {
    after.generation == s.generation + 1 && after.pending.None? && after.requests == map[] && !after.planSeen
    && !after.renewDeferred && !after.cycleActive && !InFlight(after)
  }

  // A stop ends the cruise.  Outside a cycle, with nothing left in flight, the session is renewed at once; inside one
  // the renewal is put off.
  lemma StopRenews(s: App, w: World)
    requires s.generation < U64_MAX && !s.renewDeferred
    ensures var after := Step(s, OperatorStop, w);
            && !after.cruise.active
            && (!s.cycleActive && !InFlight(after) ==> Anew(s, after))
            && (s.cycleActive ==> after.renewDeferred && after.generation == s.generation)
  {
  }

  // What was in flight is gone when its worker is cancelled: the sweep, or else the execution.
  lemma StopCancels(s: App, w: World)
    ensures var after := Step(s, OperatorStop, w);
            && (w.cancelled ==> after.sweep.None? && (s.sweep.None? ==> after.execution.None?))
            && (w.cancelled && s.sweep.None? && s.execution.Some? ==> after.executorReady)
            && (!w.cancelled ==> after.sweep == s.sweep && after.execution == s.execution)
  {
  }

  // The renewal that was put off happens at the first poll after the cycle at which nothing is in flight, and only
  // there.
  lemma DeferredRenewal(s: App, w: World)
    requires s.generation < U64_MAX
    ensures var after := Step(s, PollRenew, w);
            if s.renewDeferred && !s.cycleActive && !InFlight(s) then Anew(s, after) else after == s
  {
  }

  // A stop inside a cycle, the end of the cycle, and the next poll.
  lemma StopInCycleRenews(s: App, w1: World, w2: World, w3: World)
    requires s.generation < U64_MAX && !s.renewDeferred && s.cycleActive && !InFlight(s)
    ensures var end := Step(Step(Step(s, OperatorStop, w1), AgentEnd, w2), PollRenew, w3);
            Anew(s, end) && !end.cruise.active
  {
    StopRenews(s, w1);
    DeferredRenewal(Step(Step(s, OperatorStop, w1), AgentEnd, w2), w3);
  }

  // Switching to step mode ends there from everywhere; when it was not there already and nothing goes on, the session
  // is renewed.
  lemma StepModeEndsThere(s: App, w: World)
    ensures var after := Step(s, StepMode, w);
            && InStepMode(after.cruise)
            && (InStepMode(s.cruise) ==> after == s)
            && (!InStepMode(s.cruise) && !s.cycleActive && !InFlight(s) && s.generation < U64_MAX && !s.renewDeferred ==> Anew(s, after))
  {
  }

  // The end of a cycle forgets its prompts; a cycle without a plan is a miss of the planner.  A prompt the planner
  // refuses is forgotten and is a miss.
  lemma CycleIsOver(s: App, requestId: nat, w: World)
    ensures var after := Step(s, AgentEnd, w);
            && !after.cycleActive && !after.planSeen && after.requests == map[]
            && after.cruise == if s.cruise.active && !s.planSeen then PlannerMissing(s.cruise) else s.cruise
    ensures var after := Step(s, PromptRefused(requestId), w);
            && !after.cycleActive && !after.planSeen && requestId !in after.requests
            && (forall k :: k in s.requests && k != requestId ==> k in after.requests && after.requests[k] == s.requests[k])
            && after.cruise == if s.cruise.active then PlannerMissing(s.cruise) else s.cruise
  {
  }

  // A capture that fails or brings too much is no step: it is a miss of the radio when that is why, and otherwise the
  // end of the cruise.
  lemma FailureIsNoStep(s: App, written: Option<nat>, w: World)
    requires s.execution.Some? && (written.None? || written.value > s.execution.value)
    ensures var after := Step(s, ExecutionFinished(written), w);
            && after.execution.None? && after.executorReady
            && after.cruise.steps == s.cruise.steps && after.cruise.used == s.cruise.used
            && (s.cruise.active && !w.healthy ==> after.cruise.sdrRetries == SatAdd(s.cruise.sdrRetries, 1, U8_MAX))
            && (s.cruise.active && w.healthy ==> !after.cruise.active && after.cruise.stopReason == Some(Fault))
  {
  }

  // ----- exactly when the budget is overrun -----

  // A counted sweep succeeds in an active cruise whose budget no longer has room for it.
  predicate Overruns(s: App, e: Event, w: World) {
    && e == SweepFinished(true) && w.healthy && s.cruise.active && Counting(s)
    && !Fits(SatAdd(s.cruise.used, s.sweep.value.bytes, U64_MAX), s.cruise.maxBytes, s.limits.autoApproveIqBytes)
  }

  lemma FinishSweepOverruns(s: App, ok: bool, w: World)
    requires Sound(s) && Spent(s, s.limits.autoApproveIqBytes)
    ensures Spent(FinishSweep(s, ok, w), s.limits.autoApproveIqBytes) <==> !Overruns(s, SweepFinished(ok), w)
  {
    if s.cruise.active && Counting(s) { ExecutedSpends(s.cruise, s.sweep.value.bytes); }
  }

  // No other event can take the used bytes to budget + auto_approve_iq_bytes, and this one always does.
  lemma StepSpends(s: App, e: Event, w: World)
    requires Sound(s) && Outstanding(s) && Spent(s, s.limits.autoApproveIqBytes)
    ensures Spent(Step(s, e, w), s.limits.autoApproveIqBytes) <==> !Overruns(s, e, w)
  {
    match e
    case SweepFinished(ok) => FinishSweepOverruns(s, ok, w);
    case ExecutionFinished(written) => FinishExecutionSpends(s, written, w, s.limits.autoApproveIqBytes);
    case StartAuto(maxBytes, maxSteps, maxSecs) => BeginKeeps(s, maxBytes, maxSteps, maxSecs, w);
    case _ => QuietKeeps(s, e, w);
  }

  // A capture started and finished with `written` bytes while a counted sweep is in flight, and then the sweep: the
  // bound survives exactly when the capture itself ends the cruise or all three together fit.  Everything but
  // `written` is known when the capture starts, and `written` is at most what it asks for.
  lemma CaptureDuringSweep(s: App, requestId: nat, action: Plans.Action, written: nat, w1: World, w2: World, w3: World)
    requires Sound(s) && Outstanding(s) && s.cruise.active && Counting(s) && s.execution.None? && s.executorReady
    requires action.CaptureBoundedIq? && Answers(s, s.generation, requestId, action)
    requires !NeedsApproval(Proposal(s.requests[requestId], action)) && written <= action.samples * 4 && w3.healthy
    ensures var s1 := Step(s, PlanProposed(s.generation, requestId, action), w1);
            var s2 := Step(s1, ExecutionFinished(Some(written)), w2);
            var s3 := Step(s2, SweepFinished(true), w3);
            var used := SatAdd(s.cruise.used, written, U64_MAX);
            && s1.execution == Some(action.samples * 4) && s2.cruise.used == used
            && (Spent(s3, s.limits.autoApproveIqBytes) <==>
                  || used >= s.cruise.maxBytes || s.cruise.steps + 1 >= s.cruise.maxSteps
                  || Fits(SatAdd(used, s.sweep.value.bytes, U64_MAX), s.cruise.maxBytes, s.limits.autoApproveIqBytes))
  {
    var s1 := Step(s, PlanProposed(s.generation, requestId, action), w1);
    var s2 := Step(s1, ExecutionFinished(Some(written)), w2);
    PlanKeeps(s, s.generation, requestId, action, w1);
    assert s1 == Heard(s).(executorReady := false, execution := Some(action.samples * 4), cruise := s1.cruise);
    FinishExecutionKeeps(s1, Some(written), w2);
    FinishExecutionSpends(s1, Some(written), w2, s.limits.autoApproveIqBytes);
    StepSpends(s2, SweepFinished(true), w3);
  }

  // ----- one hardware action at a time -----

  // The event starts a capture without asking the operator.
  predicate StartsCapture(s: App, e: Event) {
    && e.PlanProposed? && e.action.CaptureBoundedIq? && Answers(s, e.generation, e.requestId, e.action)
    && s.cruise.automatic && s.cruise.active && !NeedsApproval(Proposal(s.requests[e.requestId], e.action)) && s.executorReady
  }

  // While a cruise is active, a counted sweep in flight is alone and its bytes are still free.
  ghost predicate Reserved(s: App) {
    s.cruise.active && Counting(s) ==> s.execution.None? && s.cruise.used + s.sweep.value.bytes <= s.cruise.maxBytes
  }

  // While a cruise is active, no capture is in flight.
  predicate SweepsOnly(s: App) { s.cruise.active ==> s.execution.None? }

  lemma StartReserves(s: App, p: Proposal, w: World)
    requires Sound(s) && Reserved(s) && (p.action.CaptureBoundedIq? && s.executorReady && s.cruise.active ==> !Counting(s))
    ensures Reserved(StartAction(s, p, w))
    ensures SweepsOnly(s) && !(p.action.CaptureBoundedIq? && s.executorReady && s.cruise.active) ==> SweepsOnly(StartAction(s, p, w))
  {
  }

  lemma PlanReserves(s: App, generation: nat, requestId: nat, action: Plans.Action, w: World)
    requires Sound(s) && Reserved(s) && (StartsCapture(s, PlanProposed(generation, requestId, action)) ==> !Counting(s))
    ensures Reserved(HandlePlan(s, generation, requestId, action, w))
    ensures SweepsOnly(s) && !StartsCapture(s, PlanProposed(generation, requestId, action)) ==>
              SweepsOnly(HandlePlan(s, generation, requestId, action, w))
  {
    if Answers(s, generation, requestId, action) && s.cruise.active && !NeedsApproval(Proposal(s.requests[requestId], action)) {
      StartReserves(Heard(s), Proposal(s.requests[requestId], action), w);
    }
  }

  lemma FinishReserves(s: App, e: Event, w: World)
    requires Sound(s) && Reserved(s) && (e.SweepFinished? || e.ExecutionFinished?)
    ensures Reserved(Step(s, e, w)) && (SweepsOnly(s) ==> SweepsOnly(Step(s, e, w)))
  {
  }

  lemma PlannerReserves(s: App, e: Event, w: World)
    requires Sound(s) && Reserved(s)
    requires e.Submit? || e.Queue? || e.OtherPlan? || e.AgentEnd? || e.PromptRefused? || e.QueueRefused?
    ensures Reserved(Step(s, e, w)) && (SweepsOnly(s) ==> SweepsOnly(Step(s, e, w)))
  {
  }

  lemma OperatorReserves(s: App, e: Event, w: World)
    requires Sound(s) && Outstanding(s) && Reserved(s)
    requires e.StartInitial? || e.Reject? || e.PollRenew? || e.StartAuto? || e.OperatorStop?
    ensures Reserved(Step(s, e, w)) && (SweepsOnly(s) ==> SweepsOnly(Step(s, e, w)))
  {
    if e.OperatorStop? { HaltKeeps(s, w); }
  }

  lemma StepModeReserves(s: App, w: World)
    requires Sound(s) && Reserved(s)
    ensures Reserved(ToStepMode(s, w)) && (SweepsOnly(s) ==> SweepsOnly(ToStepMode(s, w)))
  {
  }

  lemma TimerReserves(s: App, w: World)
    requires Sound(s) && Outstanding(s) && Reserved(s)
    ensures Reserved(Advance(s, w)) && (SweepsOnly(s) ==> SweepsOnly(Advance(s, w)))
  {
    var s1 := s.(cruise := Timed(s.cruise, w.now));
    if s.cruise.active && !s1.cruise.active { HaltKeeps(s1, w); }
  }

  lemma ApproveReserves(s: App, w: World)
    requires Sound(s) && Reserved(s)
    ensures Reserved(ApprovePending(s, w)) && (SweepsOnly(s) ==> SweepsOnly(ApprovePending(s, w)))
  {
    if s.pending.Some? && !InFlight(s) { StartReserves(s.(pending := None), s.pending.value, w); }
  }

  lemma StepReserves(s: App, e: Event, w: World)
    requires Sound(s) && Outstanding(s) && Reserved(s) && (StartsCapture(s, e) ==> !Counting(s))
    ensures Reserved(Step(s, e, w))
    ensures SweepsOnly(s) && !StartsCapture(s, e) ==> SweepsOnly(Step(s, e, w))
  {
    match e
    case PlanProposed(generation, requestId, action) => PlanReserves(s, generation, requestId, action, w);
    case Approve => ApproveReserves(s, w);
    case SweepFinished(_) => FinishReserves(s, e, w);
    case ExecutionFinished(_) => FinishReserves(s, e, w);
    case StepMode => StepModeReserves(s, w);
    case Timer => TimerReserves(s, w);
    case StartInitial(_) => OperatorReserves(s, e, w);
    case StartAuto(_, _, _) => OperatorReserves(s, e, w);
    case Reject => OperatorReserves(s, e, w);
    case PollRenew => OperatorReserves(s, e, w);
    case OperatorStop => OperatorReserves(s, e, w);
    case _ => PlannerReserves(s, e, w);
  }

  lemma ReservedNeverOverruns(s: App, e: Event, w: World)
    requires Sound(s) && Reserved(s)
    ensures !Overruns(s, e, w)
  {
  }

  lemma SweepStepSpends(s: App, e: Event, w: World)
    requires Sound(s) && Outstanding(s) && Reserved(s) && SweepsOnly(s) && Spent(s, 0)
    ensures Spent(Step(s, e, w), 0)
  {
    match e
    case SweepFinished(ok) => if s.cruise.active && Counting(s) { ExecutedSpends(s.cruise, s.sweep.value.bytes); }
    case ExecutionFinished(_) =>
    case StartAuto(maxBytes, maxSteps, maxSecs) => BeginKeeps(s, maxBytes, maxSteps, maxSecs, w);
    case _ => QuietKeeps(s, e, w);
  }

  // ----- runs -----

  datatype Input = Input(event: Event, world: World)

  function Run(s: App, inputs: seq<Input>): App
    decreases |inputs|
  {
    if inputs == [] then s else Run(Step(s, inputs[0].event, inputs[0].world), inputs[1..])
  }

  function Launch(limits: Plans.Limits, executorReady: bool, generation: Plans.U64): App {
    App(DEFAULT, limits, None, None, executorReady, None, generation, 1, map[], false, false, false)
  }

  lemma {:induction false} RunKeeps(s: App, inputs: seq<Input>)
    requires Sound(s) && Outstanding(s) && Spent(s, s.limits.maxIqBytes)
    ensures var end := Run(s, inputs);
            Sound(end) && Outstanding(end) && end.limits == s.limits && Spent(end, s.limits.maxIqBytes)
    decreases |inputs|
  {
    if inputs != [] {
      StepKeeps(s, inputs[0].event, inputs[0].world);
      RunKeeps(Step(s, inputs[0].event, inputs[0].world), inputs[1..]);
    }
  }

  // In every run an active cruise is strictly within its step, byte and retry budgets, and the bytes used exceed the
  // byte budget by less than one action, however captures and sweeps overlap.
  lemma CruiseIsBounded(limits: Plans.Limits, executorReady: bool, generation: Plans.U64, inputs: seq<Input>)
    requires Plans.ValidateLimits(limits).None?
    ensures var end := Run(Launch(limits, executorReady, generation), inputs);
            WithinBudgets(end.cruise) && Spent(end, limits.maxIqBytes)
  {
    RunKeeps(Launch(limits, executorReady, generation), inputs);
  }

  // Every take-off of the run was started by the operator or by an active cruise.
  ghost predicate AlwaysGated(s: App, inputs: seq<Input>)
    decreases |inputs|
  {
    inputs != [] ==>
      var e, w, after := inputs[0].event, inputs[0].world, Step(s, inputs[0].event, inputs[0].world);
      && (TakesOff(s, after) ==> OperatorStarts(s, e, w, after) || CruiseStarts(s, e, w, after))
      && AlwaysGated(after, inputs[1..])
  }

  lemma {:induction false} RunIsGated(s: App, inputs: seq<Input>)
    ensures AlwaysGated(s, inputs)
    decreases |inputs|
  {
    if inputs != [] {
      ApprovalGate(s, inputs[0].event, inputs[0].world);
      RunIsGated(Step(s, inputs[0].event, inputs[0].world), inputs[1..]);
    }
  }

  predicate InStepMode(c: Control) { !c.automatic && !c.active }

  lemma ActionStaysInStepMode(s: App, p: Proposal, w: World)
    requires InStepMode(s.cruise)
    ensures InStepMode(StartAction(s, p, w).cruise)
  {
  }

  lemma StopStaysInStepMode(s: App, w: World)
    requires InStepMode(s.cruise)
    ensures InStepMode(HaltAll(s, w).cruise) && InStepMode(ToStepMode(s, w).cruise)
  {
  }

  lemma OthersStayInStepMode(s: App, e: Event, w: World)
    requires InStepMode(s.cruise)
    requires !e.StartAuto? && !e.PlanProposed? && !e.Approve? && !e.OperatorStop? && !e.StepMode?
    ensures InStepMode(Step(s, e, w).cruise)
  {
  }

  lemma StaysInStepMode(s: App, e: Event, w: World)
    requires InStepMode(s.cruise) && !e.StartAuto?
    ensures InStepMode(Step(s, e, w).cruise)
  {
    match e
    case PlanProposed(generation, requestId, action) =>
    case Approve => if s.pending.Some? { ActionStaysInStepMode(s.(pending := None), s.pending.value, w); }
    case OperatorStop => StopStaysInStepMode(s, w);
    case StepMode => StopStaysInStepMode(s, w);
    case _ => OthersStayInStepMode(s, e, w);
  }

  // In step mode nothing is ever in flight without an approval, whatever the planner proposes.
  lemma {:induction false} NothingWithoutApproval(s: App, inputs: seq<Input>)
    requires InStepMode(s.cruise) && !Counting(s) && s.execution.None?
    requires forall i :: 0 <= i < |inputs| ==> !inputs[i].event.StartAuto? && !inputs[i].event.Approve?
    ensures var end := Run(s, inputs); InStepMode(end.cruise) && !Counting(end) && end.execution.None?
    decreases |inputs|
  {
    if inputs != [] {
      assert !inputs[0].event.StartAuto? && !inputs[0].event.Approve?;
      ApprovalGate(s, inputs[0].event, inputs[0].world);
      StaysInStepMode(s, inputs[0].event, inputs[0].world);
      NothingWithoutApproval(Step(s, inputs[0].event, inputs[0].world), inputs[1..]);
    }
  }

  // At every point of the run the used bytes stay below budget + slack.
  ghost predicate AlwaysSpent(s: App, inputs: seq<Input>, slack: nat)
    decreases |inputs|
  {
    Spent(s, slack) && (inputs != [] ==> AlwaysSpent(Step(s, inputs[0].event, inputs[0].world), inputs[1..], slack))
  }

  ghost predicate NeverOverruns(s: App, inputs: seq<Input>)
    decreases |inputs|
  {
    inputs != [] ==>
      && !Overruns(s, inputs[0].event, inputs[0].world)
      && NeverOverruns(Step(s, inputs[0].event, inputs[0].world), inputs[1..])
  }

  // A run keeps the used bytes below budget + auto_approve_iq_bytes throughout if and only if every counted sweep that
  // succeeds in it still finds room for its bytes.
  lemma {:induction false} BoundedIffNeverOverruns(s: App, inputs: seq<Input>)
    requires Sound(s) && Outstanding(s) && Spent(s, s.limits.autoApproveIqBytes)
    ensures AlwaysSpent(s, inputs, s.limits.autoApproveIqBytes) <==> NeverOverruns(s, inputs)
    decreases |inputs|
  {
    if inputs != [] {
      var e, w := inputs[0].event, inputs[0].world;
      StepKeeps(s, e, w);
      StepSpends(s, e, w);
      if !Overruns(s, e, w) { BoundedIffNeverOverruns(Step(s, e, w), inputs[1..]); }
    }
  }

  // No automatic capture starts while a counted sweep is in flight.
  ghost predicate OneAtATime(s: App, inputs: seq<Input>)
    decreases |inputs|
  {
    inputs != [] ==>
      && (StartsCapture(s, inputs[0].event) ==> !Counting(s))
      && OneAtATime(Step(s, inputs[0].event, inputs[0].world), inputs[1..])
  }

  lemma {:induction false} OneAtATimeNeverOverruns(s: App, inputs: seq<Input>)
    requires Sound(s) && Outstanding(s) && Reserved(s) && OneAtATime(s, inputs)
    ensures NeverOverruns(s, inputs)
    decreases |inputs|
  {
    if inputs != [] {
      var e, w := inputs[0].event, inputs[0].world;
      StepKeeps(s, e, w);
      StepReserves(s, e, w);
      ReservedNeverOverruns(s, e, w);
      OneAtATimeNeverOverruns(Step(s, e, w), inputs[1..]);
    }
  }

  // With one hardware action at a time, automatic captures overrun the budget by less than auto_approve_iq_bytes.
  lemma OneAtATimeIsBounded(limits: Plans.Limits, executorReady: bool, generation: Plans.U64, inputs: seq<Input>)
    requires Plans.ValidateLimits(limits).None? && OneAtATime(Launch(limits, executorReady, generation), inputs)
    ensures AlwaysSpent(Launch(limits, executorReady, generation), inputs, limits.autoApproveIqBytes)
  {
    OneAtATimeNeverOverruns(Launch(limits, executorReady, generation), inputs);
    BoundedIffNeverOverruns(Launch(limits, executorReady, generation), inputs);
  }

  ghost predicate NoAutomaticCapture(s: App, inputs: seq<Input>)
    decreases |inputs|
  {
    inputs != [] ==>
      && !StartsCapture(s, inputs[0].event)
      && NoAutomaticCapture(Step(s, inputs[0].event, inputs[0].world), inputs[1..])
  }

  lemma {:induction false} SweepRunKeeps(s: App, inputs: seq<Input>)
    requires Sound(s) && Outstanding(s) && Reserved(s) && SweepsOnly(s) && Spent(s, 0) && NoAutomaticCapture(s, inputs)
    ensures AlwaysSpent(s, inputs, 0)
    decreases |inputs|
  {
    if inputs != [] {
      var e, w := inputs[0].event, inputs[0].world;
      StepKeeps(s, e, w);
      StepReserves(s, e, w);
      SweepStepSpends(s, e, w);
      SweepRunKeeps(Step(s, e, w), inputs[1..]);
    }
  }

  // A cruise of surveys and inspections alone never exceeds its byte budget.
  lemma SweepsStayInBudget(limits: Plans.Limits, executorReady: bool, generation: Plans.U64, inputs: seq<Input>)
    requires Plans.ValidateLimits(limits).None? && NoAutomaticCapture(Launch(limits, executorReady, generation), inputs)
    ensures AlwaysSpent(Launch(limits, executorReady, generation), inputs, 0)
  {
    SweepRunKeeps(Launch(limits, executorReady, generation), inputs);
  }

  // ----- and why that matters -----

  const HERE := Plans.Candidate("c", 100_000_000, 1_000_000)
  const SEEN := Plans.Request(0, 0, false, true, true, true, [HERE], Plans.USUAL)
  const LOOK := Plans.InspectCandidate("c", 100_000_000, 5_000_000, 2_000_000, 10)
  const GRAB := Plans.CaptureBoundedIq("c", 100_000_000, 5_000_000, 2_000_000, 1_024)
  const CALM := World(0, true, true, true, true, 30, SEEN, true)

  // The prompt the timer sends in the first generation of a cruise.
  const ASKED := SEEN.(requestId := 1, generation := 2)
  const GRAB_ONCE := [Input(PlanProposed(2, 1, GRAB), CALM), Input(ExecutionFinished(Some(4_096)), CALM)]

  // A capture of 4096 bytes, started and finished whatever else is in flight.
  lemma Grabbed(s: App)
    requires s.limits == Plans.USUAL && s.cruise.automatic && s.cruise.active && s.executorReady && s.execution.None?
    requires s.generation == 2 && 1 in s.requests && s.requests[1] == ASKED
    requires s.cruise.used + 4_096 < s.cruise.maxBytes <= U64_MAX && s.cruise.steps + 1 < s.cruise.maxSteps <= 128
    ensures Run(s, GRAB_ONCE) == s.(planSeen := true, cruise := s.cruise.(
              plannerRetries := 0, phase := CheckingSdr, steps := s.cruise.steps + 1, used := s.cruise.used + 4_096))
  {
    assert Plans.FindCandidate([HERE], "c") == Some(HERE);
    assert Plans.ValidateAction(ASKED, GRAB) == Ok(false);
    var s1 := Step(s, PlanProposed(2, 1, GRAB), CALM);
    var s2 := Step(s1, ExecutionFinished(Some(4_096)), CALM);
    assert GRAB_ONCE[1..] == [Input(ExecutionFinished(Some(4_096)), CALM)];
    assert Run(s1, GRAB_ONCE[1..]) == Run(s2, GRAB_ONCE[1..][1..]);
  }

  lemma {:induction false} RunAppend(s: App, xs: seq<Input>, ys: seq<Input>)
    ensures Run(s, xs + ys) == Run(Run(s, xs), ys)
    decreases |xs|
  {
    if xs == [] {
      assert xs + ys == ys;
    } else {
      assert (xs + ys)[0] == xs[0] && (xs + ys)[1..] == xs[1..] + ys;
      RunAppend(Step(s, xs[0].event, xs[0].world), xs[1..], ys);
    }
  }

  // A cruise of 16384 bytes starts, the timer asks, and the planner answers with an inspection.
  const SET_OUT := [Input(StartAuto(Some(16_384), 8, 120), CALM), Input(Timer, CALM), Input(PlanProposed(2, 1, LOOK), CALM)]
  const LOOKED := [Input(SweepFinished(true), CALM)]

  lemma OutLooking()
    ensures Run(Launch(Plans.USUAL, true, 1), SET_OUT) == App(
              Control(true, true, Executing, Some(0), 0, 0, 16_384, 8, 120_000, 0, 0, None), Plans.USUAL,
              Some(CountedSweep(16_384)), None, true, None, 2, 2, map[1 := ASKED], true, true, false)
  {
    assert Plans.FindCandidate([HERE], "c") == Some(HERE);
    assert Plans.ValidateAction(ASKED, LOOK) == Ok(false);
    Plans.InspectionRuns(ASKED, LOOK, 30, 250);
    var s0 := Launch(Plans.USUAL, true, 1);
    var s1 := Step(s0, SET_OUT[0].event, CALM);
    var s2 := Step(s1, Timer, CALM);
    assert s2.requests == map[1 := ASKED];
    var s3 := Step(s2, PlanProposed(2, 1, LOOK), CALM);
    assert SET_OUT[1..] == [Input(Timer, CALM), Input(PlanProposed(2, 1, LOOK), CALM)];
    assert SET_OUT[1..][1..] == [Input(PlanProposed(2, 1, LOOK), CALM)];
    assert Run(s1, SET_OUT[1..]) == Run(s2, SET_OUT[1..][1..]);
    assert Run(s2, SET_OUT[1..][1..]) == Run(s3, SET_OUT[1..][1..][1..]);
  }

  // start_execution does not look at active_sweep: three captures during one inspection, all four answers to one
  // prompt, overrun a budget of 16384 bytes by more than auto_approve_iq_bytes.
  lemma OverlapOverruns()
    ensures var end := Run(Launch(Plans.USUAL, true, 1), SET_OUT + (GRAB_ONCE + (GRAB_ONCE + (GRAB_ONCE + LOOKED))));
            end.cruise.used == 28_672 && !Spent(end, Plans.USUAL.autoApproveIqBytes)
  {
    var s0 := Launch(Plans.USUAL, true, 1);
    OutLooking();
    RunAppend(s0, SET_OUT, GRAB_ONCE + (GRAB_ONCE + (GRAB_ONCE + LOOKED)));
    var s1 := Run(s0, SET_OUT);
    RunAppend(s1, GRAB_ONCE, GRAB_ONCE + (GRAB_ONCE + LOOKED));
    Grabbed(s1);
    var s2 := Run(s1, GRAB_ONCE);
    RunAppend(s2, GRAB_ONCE, GRAB_ONCE + LOOKED);
    Grabbed(s2);
    var s3 := Run(s2, GRAB_ONCE);
    RunAppend(s3, GRAB_ONCE, LOOKED);
    Grabbed(s3);
    var s4 := Run(s3, GRAB_ONCE);
    assert Run(s4, LOOKED) == Step(s4, SweepFinished(true), CALM);
  }
}
