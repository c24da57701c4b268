/**
 The console of sdr-agent.rs in its own form: an object whose handlers call CruiseControl
 and assign its fields.  Every method is proved against the function of the same event in
 Console, so what Console proves of all runs holds of the object.
 */
module ConsoleApp {
  import opened Outcome
  import opened Arithmetic
  import opened Cruise
  import opened Console
  import Plans = SweepPlan

  class App {
    const cruise: CruiseControl
    const limits: Plans.Limits
    var sweep: Option<Sweep>
    var execution: Option<nat>
    var executorReady: bool
    var pending: Option<Proposal>
    var generation: Plans.U64
    var nextRequestId: Plans.U64
    var requests: map<nat, Plans.Request>
    var cycleActive: bool
    var planSeen: bool
    var renewDeferred: bool

    ghost function View(): Console.App
      reads this, cruise
    {
      Console.App(cruise.View(), limits, sweep, execution, executorReady, pending, generation, nextRequestId, requests,
                  cycleActive, planSeen, renewDeferred)
    }

    constructor (limits: Plans.Limits, executorReady: bool, generation: Plans.U64)
      ensures View() == Launch(limits, executorReady, generation) && fresh(cruise)
    {
      cruise := new CruiseControl();
      this.limits, this.executorReady, this.generation := limits, executorReady, generation;
      sweep, execution, pending, nextRequestId, requests := None, None, None, 1, map[];
      cycleActive, planSeen, renewDeferred := false, false, false;
    }

    method StopIfActive(reason: StopReason)
      modifies cruise
      ensures View() == WhenActive(old(View()), Halt(old(View()).cruise, reason))
    {
      if cruise.active { cruise.Stop(reason); }
    }

    // start_planned_survey and start_candidate_inspection
    method BeginSweep(p: Proposal, w: World)
      requires !p.action.CaptureBoundedIq?
      modifies this, cruise
      ensures View() == StartSweep(old(View()), p, w)
    {
      if sweep.Some? || execution.Some? { return; }
      if !w.addressKnown {
        StopIfActive(Fault);
        return;
      }
      if !w.healthy {
        if cruise.active { var _ := cruise.RecordSdrUnavailable(); }
        return;
      }
      var bytes := SweepBytes(p, w.gainDb);
      if bytes.None? { return; }
      if cruise.active && bytes.value > (if cruise.maxBytes >= cruise.used then cruise.maxBytes - cruise.used else 0) {
        cruise.Stop(ByteBudgetExhausted);
        return;
      }
      sweep := Some(CountedSweep(bytes.value));
      cruise.SetPhase(Executing);
    }

    // start_execution
    method BeginExecution(bytes: nat)
      modifies this, cruise
      ensures View() == StartExecution(old(View()), bytes)
    {
      if !executorReady {
        StopIfActive(Fault);
        return;
      }
      executorReady := false;
      execution := Some(bytes);
      cruise.SetPhase(Executing);
    }

    method BeginAction(p: Proposal, w: World)
      modifies this, cruise
      ensures View() == StartAction(old(View()), p, w)
    {
      if p.action.CaptureBoundedIq? { BeginExecution(p.action.samples * 4); } else { BeginSweep(p, w); }
    }

    // The plan_proposed event.
    method OnPlan(frameGeneration: nat, requestId: nat, action: Plans.Action, w: World)
      modifies this, cruise
      ensures View() == HandlePlan(old(View()), frameGeneration, requestId, action, w)
    {
      if frameGeneration != generation { return; }
      if requestId !in requests { return; }
      var p := Proposal(requests[requestId], action);
      if Plans.ValidateAction(p.request, action).Err? { return; }
      planSeen := true;
      cruise.RecordPlannerAction();
      Decide(p, w);
    }

    method Decide(p: Proposal, w: World)
      modifies this, cruise
      ensures View() == Decided(old(View()), p, w)
    {
      if !cruise.automatic {
        if pending.None? { pending := Some(p); }
      } else if cruise.active {
        if NeedsApproval(p) {
          pending := Some(p);
          cruise.Stop(ApprovalRequired);
        } else {
          BeginAction(p, w);
        }
      }
    }

    method OnOtherPlan(frameGeneration: nat, requestId: nat, stops: bool)
      modifies this, cruise
      ensures View() == HandleOther(old(View()), frameGeneration, requestId, stops)
    {
      if frameGeneration != generation { return; }
      if requestId !in requests { return; }
      planSeen := true;
      cruise.RecordPlannerAction();
      if cruise.automatic && cruise.active { cruise.Stop(if stops then PlannerRequestedStop else UnsupportedAction); }
    }

    // What submit and queue_model_input share: a number, a checked request, an entry among the outstanding ones.
    method SendPrompt(w: World) returns (sent: bool)
      modifies this
      ensures (View(), sent) == Ask(old(View()), w)
    {
      var requestId := nextRequestId;
      if requestId == U64_MAX { return false; }
      nextRequestId := requestId + 1;
      if Plans.ValidateLimits(limits).Some? || !w.observationOk { return false; }
      requests := requests[requestId as nat := w.observed.(requestId := requestId, generation := generation, limits := limits)];
      sent := true;
    }

    // submit
    method SubmitPrompt(w: World)
      modifies this
      ensures View() == Submitted(old(View()), w)
    {
      if execution.Some? || sweep.Some? || cycleActive { return; }
      var sent := SendPrompt(w);
      if sent {
        cycleActive := true;
        planSeen := false;
      }
    }

    // queue_model_input
    method QueuePrompt(w: World)
      modifies this
      ensures View() == Queued(old(View()), w)
    {
      if !cycleActive || renewDeferred || execution.Some? || sweep.Some? { return; }
      var _ := SendPrompt(w);
    }

    // poll_sweep
    method PollSweep(ok: bool, w: World)
      modifies this, cruise
      ensures View() == FinishSweep(old(View()), ok, w)
    {
      if sweep.None? { return; }
      var kind := sweep.value;
      sweep := None;
      if ok && !w.healthy {
        StopIfActive(Fault);
      } else if kind.CountedSweep? {
        if cruise.active {
          if ok { cruise.RecordExecution(kind.bytes); } else { cruise.Stop(Fault); }
        }
      }
    }

    // poll_execution
    method PollExecution(written: Option<nat>, w: World)
      modifies this, cruise
      ensures View() == FinishExecution(old(View()), written, w)
    {
      if execution.None? { return; }
      var asked := execution.value;
      execution := None;
      executorReady := true;
      if written.Some? && written.value <= asked {
        if cruise.active { cruise.RecordExecution(written.value); }
      } else if cruise.active && !w.healthy {
        var _ := cruise.RecordSdrUnavailable();
      } else {
        cruise.Stop(Fault);
      }
    }

    // renew
    method RenewSession() returns (renewed: bool)
      modifies this
      ensures View() == Renewed(old(View())) && renewed == CanRenew(old(View()))
    {
      if cycleActive || sweep.Some? || execution.Some? { return false; }
      if generation == U64_MAX { return false; }
      generation := generation + 1;
      pending := None;
      requests := map[];
      planSeen := false;
      renewed := true;
    }

    // stop
    method StopAll(w: World)
      modifies this, cruise
      ensures View() == HaltAll(old(View()), w)
    {
      StopIfActive(OperatorStopped);
      if cycleActive { renewDeferred := true; }
      if sweep.Some? {
        if w.cancelled {
          sweep := None;
          var _ := RenewSession();
        }
      } else if execution.Some? {
        if w.cancelled {
          execution := None;
          executorReady := true;
          var _ := RenewSession();
        }
      } else if !cycleActive {
        renewDeferred := false;
        var _ := RenewSession();
      }
    }

    // The end of poll.
    method PollDeferred()
      modifies this
      ensures View() == RenewLater(old(View()))
    {
      if !cycleActive && execution.None? && sweep.None? && renewDeferred {
        renewDeferred := false;
        var _ := RenewSession();
      }
    }

    // enable_step_approval
    method EnableStepApproval(w: World)
      modifies this, cruise
      ensures View() == ToStepMode(old(View()), w)
    {
      if !cruise.automatic && !cruise.active { return; }
      var busy := cycleActive || execution.Some? || sweep.Some?;
      if busy { StopAll(w); }
      cruise.SwitchToStepApproval();
      if !busy { var _ := RenewSession(); }
    }

    // start_auto
    method BeginCruise(maxBytes: Option<Plans.U64>, maxSteps: nat, maxSecs: nat, w: World)
      modifies this, cruise
      ensures View() == BeginAuto(old(View()), maxBytes, maxSteps, maxSecs, w)
    {
      if cycleActive || execution.Some? || sweep.Some? { return; }
      if pending.Some? { return; }
      var budget := if maxBytes.Some? then maxBytes.value else SatMul(limits.maxIqBytes, maxSteps);
      if budget == 0 { return; }
      var renewed := RenewSession();
      if !renewed { return; }
      var _ := cruise.Start(budget, maxSteps, maxSecs, w.now);
    }

    // advance_auto
    method AdvanceAuto(w: World)
      modifies this, cruise
      ensures View() == Advance(old(View()), w)
    {
      if !cruise.active { return; }
      var stillActive := cruise.CheckDuration(w.now);
      if !stillActive {
        if cycleActive || execution.Some? || sweep.Some? { StopAll(w); }
        return;
      }
      if cycleActive || execution.Some? || sweep.Some? || pending.Some? || !w.due { return; }
      cruise.SetPhase(CheckingSdr);
      if !w.healthy {
        var _ := cruise.RecordSdrUnavailable();
        return;
      }
      cruise.RecordSdrAvailable();
      cruise.SetPhase(WaitingForPlanner);
      SubmitPrompt(w);
    }

    // approve
    method ApprovePlan(w: World)
      modifies this, cruise
      ensures View() == ApprovePending(old(View()), w)
    {
      if execution.Some? || sweep.Some? || pending.None? { return; }
      var plan := pending.value;
      pending := None;
      BeginAction(plan, w);
    }

    // The agent_end event.
    method OnAgentEnd()
      modifies this, cruise
      ensures View() == CycleEnded(old(View()))
    {
      cycleActive := false;
      requests := map[];
      if cruise.active && !planSeen { var _ := cruise.RecordPlannerMissing(); }
      planSeen := false;
    }

    // A prompt the planner did not take.
    method OnPromptRefused(requestId: nat)
      modifies this, cruise
      ensures View() == NotTaken(old(View()), requestId)
    {
      requests := requests - {requestId};
      cycleActive := false;
      planSeen := false;
      if cruise.active { var _ := cruise.RecordPlannerMissing(); }
    }

    method Handle(e: Event, w: World)
      modifies this, cruise
      ensures View() == Console.Step(old(View()), e, w)
    {
      match e {
        case StartAuto(maxBytes, maxSteps, maxSecs) => BeginCruise(maxBytes, maxSteps, maxSecs, w);
        case StartInitial(planOk) =>
          if !(sweep.Some? || execution.Some? || cycleActive || !w.addressKnown || !w.healthy || !planOk) {
            sweep := Some(InitialSweep);
          }
        case Submit => SubmitPrompt(w);
        case Queue => QueuePrompt(w);
        case PlanProposed(frameGeneration, requestId, action) => OnPlan(frameGeneration, requestId, action, w);
        case OtherPlan(frameGeneration, requestId, stops) => OnOtherPlan(frameGeneration, requestId, stops);
        case SweepFinished(ok) => PollSweep(ok, w);
        case ExecutionFinished(written) => PollExecution(written, w);
        case Approve => ApprovePlan(w);
        case Reject => pending := None;
        case PollRenew => PollDeferred();
        case OperatorStop => StopAll(w);
        case StepMode => EnableStepApproval(w);
        case Timer => AdvanceAuto(w);
        case AgentEnd => OnAgentEnd();
        case PromptRefused(requestId) => OnPromptRefused(requestId);
        case QueueRefused(requestId) => requests := requests - {requestId};
      }
    }
  }

  // A console fed any list of events stays within the budgets of its cruise.
  method Operate(limits: Plans.Limits, executorReady: bool, generation: Plans.U64, inputs: seq<Input>) returns (app: App)
    requires Plans.ValidateLimits(limits).None?
    ensures app.View() == Run(Launch(limits, executorReady, generation), inputs)
    ensures WithinBudgets(app.cruise.View()) && Spent(app.View(), limits.maxIqBytes)
  {
    CruiseIsBounded(limits, executorReady, generation, inputs);
    app := new App(limits, executorReady, generation);
    var i := 0;
    assert inputs[0..] == inputs;
    while i < |inputs|
      invariant 0 <= i <= |inputs| && fresh(app) && fresh(app.cruise)
      invariant Run(app.View(), inputs[i..]) == Run(Launch(limits, executorReady, generation), inputs)
    {
      assert inputs[i..][0] == inputs[i] && inputs[i..][1..] == inputs[i + 1..];
      app.Handle(inputs[i].event, inputs[i].world);
      i := i + 1;
    }
  }
}
