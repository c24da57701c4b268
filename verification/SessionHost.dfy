/**
 sdrd_session_t and its handlers in the source's form: an object whose fields the
 handlers assign one by one, next to the radio they drive.  Every method is proved
 against the function of the same machine in Session.
 */
module SessionHost {
  import opened Outcome
  import opened Arithmetic
  import opened Radio
  import opened Session
  import opened Base64
  import opened SessionRuns

  class Host {
    var generation: nat
    var lastRequestId: nat
    var active: bool
    var profileApplied: bool
    var restoreRequired: bool
    var faulted: bool
    var saved: Settings
    var current: Settings
    const radio: IioRadio

    ghost function View(): Daemon
      reads this, radio
    {
      Daemon(SessionState(generation, lastRequestId, active, profileApplied, restoreRequired, faulted, saved, current),
             radio.now, radio.sequence)
    }

    // sdrd_session_init
    constructor (radio: IioRadio)
      ensures this.radio == radio && View() == Fresh(radio.now, radio.sequence)
    {
      this.radio := radio;
      generation, lastRequestId, active, profileApplied, restoreRequired, faulted := 0, 0, false, false, false, false;
      saved, current := BLANK, BLANK;
    }

    method CloseSession(be: Backend, o: Outcomes) returns (ok: bool, ops: seq<RadioOp>)
      modifies this, radio
      ensures (View(), ok, ops) == Close(be, old(View()), o)
    {
      if !active && !restoreRequired { return true, []; }
      if !be.available {
        faulted := true;
        return false, [];
      }
      ops := [OpStop];
      assert ops + [] == ops;
      var restored := true;
      if restoreRequired {
        restored := radio.WriteBackAll(saved, o.restore);
        ops := ops + [OpRestore(saved)];
      }
      active := false;
      profileApplied := false;
      if restored {
        restoreRequired := false;
        current := BLANK;
      } else {
        faulted := true;
      }
      ok := restored && o.stopOk;
    }

    method Start(id: nat, args: Option<nat>, o: Outcomes) returns (reply: Reply, ops: seq<RadioOp>)
      modifies this
      ensures Step(View(), reply, ops) == HandleStart(old(View()), id, args, o)
    {
      if args.None? || args.value == 0 { return Error(id, InvalidArguments), []; }
      if faulted { return Error(id, RestoreFault), []; }
      if active { return Error(id, SessionBusy), []; }
      saved := if o.snapshotOk then radio.now else o.snapshotJunk;
      if !o.snapshotOk { return Error(id, SnapshotFailed), [OpSnapshot]; }
      ops := [OpSnapshot, OpBegin];
      if !o.beginOk { return Error(id, SessionBeginFailed), ops; }
      generation := args.value;
      active := true;
      profileApplied := false;
      restoreRequired := true;
      reply := Owned(id, args.value);
    }

    method Profile(cfg: Config, be: Backend, id: nat, args: Option<ProfileArgs>, o: Outcomes)
      returns (reply: Reply, ops: seq<RadioOp>)
      modifies this, radio
      ensures Step(View(), reply, ops) == HandleApply(cfg, be, old(View()), id, args, o)
    {
      if args.None? || !ValidProfileArgs(args.value) { return Error(id, InvalidArguments), []; }
      if !active || args.value.generation != generation { return Error(id, StaleOrMissingSession), []; }
      var profile := ProfileOf(args.value);
      if !InBounds(cfg, profile) || args.value.channels != 1 { return Error(id, ProfileOutOfBounds), []; }
      ops := [OpApply(profile)];
      var applied := radio.ApplyProfile(profile, o.tune);
      if !applied {
        var ok, more := CloseSession(be, o);
        return Error(id, if ok then ApplyFailedRestored else ApplyFailedRestoreFault), ops + more;
      }
      current := profile;
      profileApplied := true;
      reply := ProfileReply(id, args.value.generation, profile);
    }

    method Refuse(cfg: Config, args: Option<CaptureArgs>) returns (code: Option<ErrorCode>)
      ensures code == CaptureRefusal(cfg, View(), args)
    {
      if args.None? || !ValidFeatureId(args.value.featureId) { return Some(InvalidArguments); }
      if !active || !profileApplied || args.value.generation != generation { return Some(StaleOrMissingSession); }
      if args.value.samples == 0 || args.value.samples > U64_MAX / 4 { return Some(CaptureOutOfBounds); }
      var timeoutMs := if args.value.timeoutMs == 0 then cfg.iioTimeoutMs else args.value.timeoutMs;
      if timeoutMs > 5000 { return Some(CaptureTimeoutOutOfBounds); }
      code := None;
    }

    method Capture(cfg: Config, be: Backend, id: nat, args: Option<CaptureArgs>, o: Outcomes)
      returns (reply: Reply, ops: seq<RadioOp>)
      modifies this, radio
      ensures Step(View(), reply, ops) == HandleCaptureIq(cfg, be, old(View()), id, args, o)
    {
      var refusal := Refuse(cfg, args);
      if refusal.Some? { return Error(id, refusal.value), []; }
      var a := args.value;
      if a.maxBytes == 0 || a.maxBytes > cfg.maxCaptureBytes || a.samples * 4 > a.maxBytes {
        return Error(id, CaptureOutOfBounds), [];
      }
      ops := [OpCaptureIq(a.generation)];
      if o.capture.CaptureDone? || o.capture.numbered { radio.sequence := radio.sequence + 1; }
      if o.capture.CaptureFailed? {
        var ok, more := CloseSession(be, o);
        return Error(id, if ok then CaptureFailedRestored else CaptureFailedRestoreFault), ops + more;
      }
      var r := o.capture.result;
      if r.samples > a.samples || r.bytes > a.maxBytes || r.timeoutMs == 0 || r.timedOut || !r.pathOk {
        var _, more := CloseSession(be, o);
        return Error(id, AdapterContractViolation), ops + more;
      }
      reply := CaptureReply(id, a.generation, radio.sequence, r);
    }

    method Inline(cfg: Config, be: Backend, id: nat, args: Option<CaptureArgs>, o: Outcomes)
      returns (reply: Reply, ops: seq<RadioOp>)
      modifies this, radio
      ensures Step(View(), reply, ops) == HandleInline(cfg, be, old(View()), id, args, o)
    {
      var refusal := Refuse(cfg, args);
      if refusal.Some? { return Error(id, refusal.value), []; }
      var a := args.value;
      var required := a.samples * 4;
      if a.maxBytes != required || required > MAX_INLINE_CAPTURE_BYTES || required > cfg.maxCaptureBytes {
        return Error(id, InlineCaptureOutOfBounds), [];
      }
      ops := [OpCaptureIq(a.generation)];
      if o.capture.CaptureDone? || o.capture.numbered { radio.sequence := radio.sequence + 1; }
      if o.capture.CaptureFailed? {
        var ok, more := CloseSession(be, o);
        return Error(id, if ok then CaptureFailedRestored else CaptureFailedRestoreFault), ops + more;
      }
      var r := o.capture.result;
      if !InlineContract(a, r) {
        var _, more := CloseSession(be, o);
        return Error(id, AdapterContractViolation), ops + more;
      }
      if !o.pathsOk {
        var _, more := CloseSession(be, o);
        return Error(id, InlinePathInvalid), ops + more;
      }
      if !o.transferOk || |r.iq| != r.bytes {
        var ok, more := CloseSession(be, o);
        return Error(id, if ok then InlineTransferFailedRestored else InlineTransferRestoreFault), ops + more;
      }
      reply := InlineReply(id, a.generation, radio.sequence, r, Encode(r.iq));
    }

    method Power(be: Backend, id: nat, args: Option<PowerArgs>, o: Outcomes) returns (reply: Reply, ops: seq<RadioOp>)
      modifies this, radio
      ensures Step(View(), reply, ops) == HandlePower(be, old(View()), id, args, o)
    {
      if args.None? { return Error(id, InvalidArguments), []; }
      var a := args.value;
      if !active || !profileApplied || a.generation != generation { return Error(id, StaleOrMissingSession), []; }
      if a.frameSamples < 64 || a.frameSamples > 65535 || a.aggregateFrames == 0 || a.aggregateFrames > 65535
         || a.frameSamples * a.aggregateFrames > 1048576 || a.timeoutMs == 0 || a.timeoutMs > 5000 {
        return Error(id, SummaryOutOfBounds), [];
      }
      if !be.power { return Error(id, SoftwareSummaryUnavailable), []; }
      ops := [OpCapturePower(a.generation)];
      radio.sequence := radio.sequence + 1;
      if o.power.PowerFailed? {
        var code := if o.power.timedOut then PowerTimeoutRestored else PowerFailedRestored;
        var ok, more := CloseSession(be, o);
        if !ok { code := PowerFailedRestoreFault; }
        return Error(id, code), ops + more;
      }
      reply := PowerReply(id, a.generation, radio.sequence, o.power.samples, o.power.power, o.power.clips, o.power.flags);
    }

    method Stop(be: Backend, id: nat, args: Option<nat>, o: Outcomes) returns (reply: Reply, ops: seq<RadioOp>)
      modifies this, radio
      ensures Step(View(), reply, ops) == HandleStop(be, old(View()), id, args, o)
    {
      if args.None? { return Error(id, InvalidArguments), []; }
      if !active || args.value != generation { return Error(id, StaleOrMissingSession), []; }
      var ok, more := CloseSession(be, o);
      assert [] + more == more;
      return if ok then Restored(id, args.value) else Error(id, StopOrRestoreFailed), more;
    }

    method Control(cfg: Config, be: Backend, id: nat, c: Command, o: Outcomes) returns (reply: Reply, ops: seq<RadioOp>)
      requires Mutating(c)
      modifies this, radio
      ensures Step(View(), reply, ops) == HandleControl(cfg, be, old(View()), id, c, o)
    {
      if !cfg.controlled { return Error(id, ReadOnlyShadow), []; }
      if !be.available { return Error(id, RadioBackendUnavailable), []; }
      match c {
        case StartSession(args) => reply, ops := Start(id, args, o);
        case ApplyProfile(args) => reply, ops := Profile(cfg, be, id, args, o);
        case CaptureIq(args) => reply, ops := Capture(cfg, be, id, args, o);
        case CaptureIqInline(args) => reply, ops := Inline(cfg, be, id, args, o);
        case CapturePower(args) => reply, ops := Power(be, id, args, o);
        case StopSession(args) => reply, ops := Stop(be, id, args, o);
        case ExecutionStatus(args) =>
          ops := [];
          if args.None? {
            reply := Error(id, InvalidArguments);
          } else if active && args.value != generation {
            reply := Error(id, StaleSession);
          } else {
            reply := StatusReply(id, generation, active, profileApplied, restoreRequired, faulted);
          }
      }
    }

    method Plain(cfg: Config, be: Backend, id: nat, c: Command, o: Outcomes) returns (reply: Reply, ops: seq<RadioOp>)
      requires !Mutating(c)
      modifies this, radio
      ensures Step(View(), reply, ops) == HandlePlain(cfg, be, old(View()), id, c, o)
    {
      ops := [];
      match c {
        case Hello(fields) =>
          reply := if fields then HelloReply(id, cfg.controlled, cfg.controlled && be.available)
                   else Error(id, InvalidArguments);
        case Capabilities(fields) =>
          var control := cfg.controlled && be.available && !faulted;
          reply := if !fields then Error(id, InvalidArguments) else if !o.probeOk then Error(id, ProbeFailed)
                   else CapabilitiesReply(id, cfg.controlled, o.iioVisible, control, control && be.power, cfg.maxCaptureBytes);
        case Health(fields) =>
          reply := if !fields then Error(id, InvalidArguments) else if !o.probeOk then Error(id, ProbeFailed)
                   else HealthReply(id, faulted);
        case Quit(fields) =>
          if !fields { return Error(id, InvalidArguments), []; }
          var ok, more := CloseSession(be, o);
          assert [] + more == more;
          return if ok then Closing(id) else Error(id, StopOrRestoreFailed), more;
        case CaptureSummary => reply := Error(id, RetiredCommand);
        case Retune => reply := Error(id, NotAllowlisted);
        case UnknownCommand => reply := Error(id, UnknownCommandName);
      }
    }

    // sdrd_handle_request
    method HandleRequest(cfg: Config, be: Backend, line: Line, o: Outcomes) returns (reply: Reply, ops: seq<RadioOp>)
      modifies this, radio
      ensures Step(View(), reply, ops) == Handle(cfg, be, old(View()), line, o)
    {
      if line.Unparsable? { return Error(0, InvalidRequest), []; }
      if line.id == 0 { return Error(0, InvalidRequestId), []; }
      if lastRequestId != 0 && line.id <= lastRequestId { return Error(line.id, StaleOrDuplicateRequest), []; }
      lastRequestId := line.id;
      if Mutating(line.command) {
        reply, ops := Control(cfg, be, line.id, line.command, o);
      } else {
        reply, ops := Plain(cfg, be, line.id, line.command, o);
      }
    }
  }

  lemma TraceStep(cfg: Config, be: Backend, d: Daemon, inputs: seq<Input>, i: nat, st: Step)
    requires i < |inputs| && st == Handle(cfg, be, d, inputs[i].line, inputs[i].outcomes)
    ensures Trace(cfg, be, d, inputs[i..])
            == [st] + if st.reply.Closing? || !inputs[i].sent then [] else Trace(cfg, be, st.after, inputs[i + 1..])
  {
  }

  lemma LoopStep(all: seq<Step>, t: seq<Step>, st: Step, rest: seq<Step>)
    requires all == t + ([st] + rest)
    ensures all == (t + [st]) + rest
    ensures forall d :: After(d, t + [st]) == st.after
  {
  }

  // The request loop of serve_client.
  method ServeLoop(cfg: Config, be: Backend, host: Host, inputs: seq<Input>) returns (ghost t: seq<Step>, replies: seq<Reply>)
    modifies host, host.radio
    ensures t == Trace(cfg, be, old(host.View()), inputs) && host.View() == After(old(host.View()), t)
    ensures |replies| == |t| && forall i :: 0 <= i < |t| ==> replies[i] == t[i].reply
  {
    ghost var d0 := host.View();
    t, replies := [], [];
    var i, open := 0, true;
    assert inputs[0..] == inputs && t + Trace(cfg, be, d0, inputs) == Trace(cfg, be, d0, inputs);
    while i < |inputs| && open
      invariant 0 <= i <= |inputs|
      invariant host.View() == After(d0, t)
      invariant Trace(cfg, be, d0, inputs) == t + (if open then Trace(cfg, be, host.View(), inputs[i..]) else [])
      invariant |replies| == |t| && forall k :: 0 <= k < |t| ==> replies[k] == t[k].reply
    {
      ghost var d := host.View();
      var reply, ops := host.HandleRequest(cfg, be, inputs[i].line, inputs[i].outcomes);
      ghost var st := Step(host.View(), reply, ops);
      TraceStep(cfg, be, d, inputs, i, st);
      open := !reply.Closing? && inputs[i].sent;
      ghost var rest := if open then Trace(cfg, be, st.after, inputs[i + 1..]) else [];
      LoopStep(Trace(cfg, be, d0, inputs), t, st, rest);
      t := t + [st];
      replies := replies + [reply];
      i := i + 1;
    }
    assert open ==> inputs[i..] == [];
  }

  // serve_client on a fresh session: when it returns without an error from the final close, the
  // radio is back where the connection found it, whatever was asked and whatever failed.
  method ServeClient(cfg: Config, be: Backend, radio: IioRadio, c: Connection) returns (ok: bool, replies: seq<Reply>)
    modifies radio
    ensures var (end, closed) := Serve(cfg, be, old(radio.now), old(radio.sequence), c);
            radio.now == end.radio && radio.sequence == end.sequence && ok == closed
    ensures ok ==> Same(radio.now, old(radio.now))
    ensures var t := Trace(cfg, be, Fresh(old(radio.now), old(radio.sequence)), c.inputs);
            |replies| == |t| && forall i :: 0 <= i < |t| ==> replies[i] == t[i].reply
  {
    ConnectionComesHome(cfg, be, radio.now, radio.sequence, c);
    var host := new Host(radio);
    ghost var t;
    t, replies := ServeLoop(cfg, be, host, c.inputs);
    ghost var ops;
    ok, ops := host.CloseSession(be, c.closing);
  }
}
