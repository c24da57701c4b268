/**
 What every run of the session machine keeps: the radio is either where it was when
 the connection began or owed back from an intact snapshot, replies that claim
 restoration tell the truth, and captures run only on a verified profile.
 */
module SessionRuns {
  import opened Outcome
  import opened Radio
  import opened Session

  // The inductive invariant; `r0` is the radio when the connection began.
  ghost predicate Inv(cfg: Config, be: Backend, r0: Settings, d: Daemon) {
    var s := d.session;
    && (s.active ==> s.restoreRequired && !s.faulted && be.available)
    && (s.restoreRequired && !s.active ==> s.faulted)
    && (s.restoreRequired ==> be.available && Same(s.saved, r0))
    && (!s.restoreRequired ==> Same(d.radio, r0))
    && (s.profileApplied ==> s.active && InBounds(cfg, s.current) && Tuned(d.radio, s.current))
  }

  // Nothing is owed and the radio is back.
  ghost predicate Home(r0: Settings, d: Daemon) {
    !d.session.active && !d.session.restoreRequired && Same(d.radio, r0)
  }

  // Replies that promise the radio was put back.
  predicate ClaimsRestored(r: Reply) {
    || r.Restored?
    || r.Closing?
    || (r.Error? && (r.code.ApplyFailedRestored? || r.code.CaptureFailedRestored? || r.code.InlineTransferFailedRestored?
                     || r.code.PowerTimeoutRestored? || r.code.PowerFailedRestored?))
  }

  // Requests refused before any radio operation.
  predicate Rejected(r: Reply) {
    r.Error? &&
    match r.code
    case InvalidRequest => true
    case InvalidRequestId => true
    case StaleOrDuplicateRequest => true
    case InvalidArguments => true
    case ReadOnlyShadow => true
    case RadioBackendUnavailable => true
    case RestoreFault => true
    case SessionBusy => true
    case StaleOrMissingSession => true
    case StaleSession => true
    case ProfileOutOfBounds => true
    case CaptureOutOfBounds => true
    case CaptureTimeoutOutOfBounds => true
    case InlineCaptureOutOfBounds => true
    case SummaryOutOfBounds => true
    case SoftwareSummaryUnavailable => true
    case RetiredCommand => true
    case NotAllowlisted => true
    case UnknownCommandName => true
    case _ => false
  }

  // A capture of generation g may run: the session owns the radio under g, and the radio reads
  // back as a profile within the configured bounds.
  ghost predicate MayCapture(cfg: Config, d: Daemon, g: nat) {
    var s := d.session;
    s.active && s.profileApplied && g == s.generation && InBounds(cfg, s.current) && Tuned(d.radio, s.current)
  }

  // What one request must respect, besides keeping the invariant.
  ghost predicate Lawful(cfg: Config, r0: Settings, d: Daemon, line: Line, st: Step) {
    var s := d.session;
    && (ClaimsRestored(st.reply) ==> Home(r0, st.after))
    && (s.faulted ==> st.after.session.faulted)
    && (OpSnapshot in st.ops ==> !s.restoreRequired)
    && (forall saved :: OpRestore(saved) in st.ops ==> Same(saved, r0))
    && (forall g :: OpCaptureIq(g) in st.ops || OpCapturePower(g) in st.ops ==> MayCapture(cfg, d, g))
    && (Rejected(st.reply) ==>
          && st.ops == [] && st.after.radio == d.radio && st.after.sequence == d.sequence
          && (st.after.session == s || (line.Line? && st.after.session == s.(lastRequestId := line.id))))
    && (line.Line? && s.lastRequestId != 0 && line.id <= s.lastRequestId ==> st.after == d && st.ops == [])
  }

  // What sdrd_session_close relies on; a failed apply leaves the radio anywhere.
  ghost predicate Closable(be: Backend, r0: Settings, d: Daemon) {
    var s := d.session;
    && (s.active ==> s.restoreRequired && !s.faulted && be.available)
    && (s.restoreRequired && !s.active ==> s.faulted)
    && (s.restoreRequired ==> be.available && Same(s.saved, r0))
    && (!s.restoreRequired ==> Same(d.radio, r0))
    && (s.profileApplied ==> s.active)
  }

  lemma CloseKeeps(cfg: Config, be: Backend, r0: Settings, d: Daemon, o: Outcomes)
    requires Closable(be, r0, d)
    ensures Inv(cfg, be, r0, Close(be, d, o).0)
    ensures Close(be, d, o).1 ==> Home(r0, Close(be, d, o).0)
    ensures d.session.faulted ==> Close(be, d, o).0.session.faulted
    ensures forall op :: op in Close(be, d, o).2 ==> op == OpStop || (op.OpRestore? && Same(op.saved, r0))
  {
  }

  // The common ending of every handler that closes the session: `before` is the operation that
  // led to it, made in state `d0`.
  lemma CloseThenKeeps(cfg: Config, be: Backend, r0: Settings, d0: Daemon, d: Daemon, o: Outcomes,
                       before: seq<RadioOp>, whenOk: Reply, whenNot: Reply)
    requires Closable(be, r0, d) && d.session == d0.session
    requires !ClaimsRestored(whenNot) && !Rejected(whenOk) && !Rejected(whenNot)
    requires forall op :: op in before ==> op.OpApply? || op.OpCaptureIq? || op.OpCapturePower?
    requires forall g :: OpCaptureIq(g) in before || OpCapturePower(g) in before ==> MayCapture(cfg, d0, g)
    ensures var st := CloseThen(be, d, o, before, whenOk, whenNot);
            Inv(cfg, be, r0, st.after) && Lawful(cfg, r0, d0, Unparsable, st)
  {
  }

  lemma StartKeeps(cfg: Config, be: Backend, r0: Settings, d: Daemon, id: nat, args: Option<nat>, o: Outcomes)
    requires Inv(cfg, be, r0, d) && be.available
    ensures var st := HandleStart(d, id, args, o);
            Inv(cfg, be, r0, st.after) && Lawful(cfg, r0, d, Unparsable, st)
  {
  }

  lemma ApplyKeeps(cfg: Config, be: Backend, r0: Settings, d: Daemon, id: nat, args: Option<ProfileArgs>, o: Outcomes)
    requires Inv(cfg, be, r0, d)
    ensures var st := HandleApply(cfg, be, d, id, args, o);
            Inv(cfg, be, r0, st.after) && Lawful(cfg, r0, d, Unparsable, st)
  {
    if args.Some? && d.session.active {
      var profile := ProfileOf(args.value);
      TuneAndRestoreReach(d.radio, profile, o.tune, o.restore);
      CloseThenKeeps(cfg, be, r0, d, d.(radio := Apply(d.radio, profile, o.tune).0), o, [OpApply(profile)],
                     Error(id, ApplyFailedRestored), Error(id, ApplyFailedRestoreFault));
    }
  }

  // A capture that was let through, ending in a close or in a reply.
  lemma LetThrough(cfg: Config, be: Backend, r0: Settings, d: Daemon, d1: Daemon, id: nat, op: RadioOp, o: Outcomes,
                   code: ErrorCode, fault: ErrorCode)
    requires Inv(cfg, be, r0, d) && (d1 == d || d1 == d.(sequence := d.sequence + 1))
    requires (op.OpCaptureIq? || op.OpCapturePower?) && MayCapture(cfg, d, op.generation)
    requires !Rejected(Error(id, code)) && !Rejected(Error(id, fault)) && !ClaimsRestored(Error(id, fault))
    ensures var st := CloseThen(be, d1, o, [op], Error(id, code), Error(id, fault));
            Inv(cfg, be, r0, st.after) && Lawful(cfg, r0, d, Unparsable, st)
  {
    CloseThenKeeps(cfg, be, r0, d, d1, o, [op], Error(id, code), Error(id, fault));
  }

  lemma CaptureKeeps(cfg: Config, be: Backend, r0: Settings, d: Daemon, id: nat, args: Option<CaptureArgs>, o: Outcomes)
    requires Inv(cfg, be, r0, d)
    ensures var st := HandleCaptureIq(cfg, be, d, id, args, o);
            Inv(cfg, be, r0, st.after) && Lawful(cfg, r0, d, Unparsable, st)
  {
    if CaptureRefusal(cfg, d, args).None? {
      var d1, op := Numbered(d, o.capture), OpCaptureIq(args.value.generation);
      LetThrough(cfg, be, r0, d, d1, id, op, o, CaptureFailedRestored, CaptureFailedRestoreFault);
      LetThrough(cfg, be, r0, d, d1, id, op, o, AdapterContractViolation, AdapterContractViolation);
    }
  }

  lemma InlineKeeps(cfg: Config, be: Backend, r0: Settings, d: Daemon, id: nat, args: Option<CaptureArgs>, o: Outcomes)
    requires Inv(cfg, be, r0, d)
    ensures var st := HandleInline(cfg, be, d, id, args, o);
            Inv(cfg, be, r0, st.after) && Lawful(cfg, r0, d, Unparsable, st)
  {
    if CaptureRefusal(cfg, d, args).None? {
      var failure := InlineFailure(args.value, o);
      if failure.Some? {
        LetThrough(cfg, be, r0, d, Numbered(d, o.capture), id, OpCaptureIq(args.value.generation), o,
                   failure.value.0, failure.value.1);
      }
    }
  }

  lemma PowerKeeps(cfg: Config, be: Backend, r0: Settings, d: Daemon, id: nat, args: Option<PowerArgs>, o: Outcomes)
    requires Inv(cfg, be, r0, d)
    ensures var st := HandlePower(be, d, id, args, o);
            Inv(cfg, be, r0, st.after) && Lawful(cfg, r0, d, Unparsable, st)
  {
    if args.Some? && d.session.active && d.session.profileApplied && args.value.generation == d.session.generation {
      var d1, op := d.(sequence := d.sequence + 1), OpCapturePower(args.value.generation);
      if o.power.PowerFailed? {
        LetThrough(cfg, be, r0, d, d1, id, op, o, if o.power.timedOut then PowerTimeoutRestored else PowerFailedRestored,
                   PowerFailedRestoreFault);
      }
    }
  }

  lemma ControlKeeps(cfg: Config, be: Backend, r0: Settings, d: Daemon, id: nat, c: Command, o: Outcomes)
    requires Inv(cfg, be, r0, d) && Mutating(c)
    ensures var st := HandleControl(cfg, be, d, id, c, o);
            Inv(cfg, be, r0, st.after) && Lawful(cfg, r0, d, Unparsable, st)
  {
    match c
    case StartSession(args) => if be.available { StartKeeps(cfg, be, r0, d, id, args, o); }
    case ApplyProfile(args) => ApplyKeeps(cfg, be, r0, d, id, args, o);
    case CaptureIq(args) => CaptureKeeps(cfg, be, r0, d, id, args, o);
    case CaptureIqInline(args) => InlineKeeps(cfg, be, r0, d, id, args, o);
    case CapturePower(args) => PowerKeeps(cfg, be, r0, d, id, args, o);
    case ExecutionStatus(args) =>
    case StopSession(args) =>
      if args.Some? {
        CloseThenKeeps(cfg, be, r0, d, d, o, [], Restored(id, args.value), Error(id, StopOrRestoreFailed));
      }
  }

  lemma PlainKeeps(cfg: Config, be: Backend, r0: Settings, d: Daemon, id: nat, c: Command, o: Outcomes)
    requires Inv(cfg, be, r0, d) && !Mutating(c)
    ensures var st := HandlePlain(cfg, be, d, id, c, o);
            Inv(cfg, be, r0, st.after) && Lawful(cfg, r0, d, Unparsable, st)
  {
    if c.Quit? { CloseThenKeeps(cfg, be, r0, d, d, o, [], Closing(id), Error(id, StopOrRestoreFailed)); }
  }

  // Every request, whatever its operations do, keeps the invariant and the laws.
  lemma StepKeeps(cfg: Config, be: Backend, r0: Settings, d: Daemon, line: Line, o: Outcomes)
    requires Inv(cfg, be, r0, d)
    ensures Inv(cfg, be, r0, Handle(cfg, be, d, line, o).after)
    ensures Lawful(cfg, r0, d, line, Handle(cfg, be, d, line, o))
  {
    if line.Line? {
      var d1 := d.(session := d.session.(lastRequestId := line.id));
      if Mutating(line.command) {
        ControlKeeps(cfg, be, r0, d1, line.id, line.command, o);
      } else {
        PlainKeeps(cfg, be, r0, d1, line.id, line.command, o);
      }
    }
  }

  // ----- whole connections -----

  datatype Input = Input(line: Line, outcomes: Outcomes, sent: bool)

  // The requests of serve_client's loop, one after the other: it ends after a QUIT that closed,
  // after a reply that could not be sent, and when the input ends.
  ghost function Trace(cfg: Config, be: Backend, d: Daemon, inputs: seq<Input>): seq<Step>
    decreases |inputs|
  {
    if inputs == [] then []
    else
      var st := Handle(cfg, be, d, inputs[0].line, inputs[0].outcomes);
      if st.reply.Closing? || !inputs[0].sent then [st]
      else [st] + Trace(cfg, be, st.after, inputs[1..])
  }

  ghost function After(d: Daemon, trace: seq<Step>): Daemon {
    if trace == [] then d else trace[|trace| - 1].after
  }

  // The state a traced step started from.
  ghost function Before(d: Daemon, t: seq<Step>, i: nat): Daemon
    requires i < |t|
  {
    if i == 0 then d else t[i - 1].after
  }

  // One step of a run: what the request does, keeping the invariant and the laws.
  ghost predicate Honest(cfg: Config, be: Backend, r0: Settings, before: Daemon, input: Input, st: Step) {
    && st == Handle(cfg, be, before, input.line, input.outcomes)
    && Inv(cfg, be, r0, st.after)
    && Lawful(cfg, r0, before, input.line, st)
  }

  // At every point of every run, with arbitrary failures: either nothing is owed and the radio is
  // where it began, or an intact snapshot of where it began is owed; and every step is lawful, so
  // every reply that claims restoration is sent with nothing owed.
  lemma {:induction false} RunKeeps(cfg: Config, be: Backend, r0: Settings, d: Daemon, inputs: seq<Input>)
    requires Inv(cfg, be, r0, d)
    ensures var t := Trace(cfg, be, d, inputs);
            && |t| <= |inputs| && Inv(cfg, be, r0, After(d, t))
            && forall i :: 0 <= i < |t| ==> Honest(cfg, be, r0, Before(d, t, i), inputs[i], t[i])
    decreases |inputs|
  {
    if inputs != [] {
      var input := inputs[0];
      StepKeeps(cfg, be, r0, d, input.line, input.outcomes);
      var st := Handle(cfg, be, d, input.line, input.outcomes);
      var t := Trace(cfg, be, d, inputs);
      assert Honest(cfg, be, r0, d, input, st);
      if !(st.reply.Closing? || !input.sent) {
        RunKeeps(cfg, be, r0, st.after, inputs[1..]);
        var rest := Trace(cfg, be, st.after, inputs[1..]);
        assert t == [st] + rest;
        forall i | 0 <= i < |t| ensures Honest(cfg, be, r0, Before(d, t, i), inputs[i], t[i]) {
          if i > 0 {
            assert t[i] == rest[i - 1] && Before(d, t, i) == Before(st.after, rest, i - 1) && inputs[i] == inputs[1..][i - 1];
          }
        }
      }
    }
  }

  datatype Connection = Connection(inputs: seq<Input>, closing: Outcomes)

  ghost function Fresh(radio: Settings, sequence: nat): Daemon { Daemon(FRESH, radio, sequence) }

  // serve_client: a fresh session, its requests, and the close on the way out.
  ghost function Serve(cfg: Config, be: Backend, radio: Settings, sequence: nat, c: Connection): (Daemon, bool) {
    var end := Close(be, After(Fresh(radio, sequence), Trace(cfg, be, Fresh(radio, sequence), c.inputs)), c.closing);
    (end.0, end.1)
  }

  // When a connection is over, nothing is active, and the radio is back unless the last restore
  // itself was lost; a clean result means the radio is back.
  lemma ConnectionComesHome(cfg: Config, be: Backend, r0: Settings, sequence: nat, c: Connection)
    ensures var (end, ok) := Serve(cfg, be, r0, sequence, c);
            && !end.session.active
            && (ok ==> Home(r0, end))
            && (Home(r0, end) || (end.session.restoreRequired && end.session.faulted && Same(end.session.saved, r0)))
  {
    var d := Fresh(r0, sequence);
    RunKeeps(cfg, be, r0, d, c.inputs);
    CloseKeeps(cfg, be, r0, After(d, Trace(cfg, be, d, c.inputs)), c.closing);
  }

  // A `..._restore_fault` code says that stop or restore failed; the session is faulted only when
  // restore did.  With stop alone failing, the fault is reported although the radio is back.
  lemma FaultCodes(cfg: Config, be: Backend, r0: Settings, d: Daemon, o: Outcomes)
    requires Inv(cfg, be, r0, d) && d.session.active
    ensures var (after, ok, _) := Close(be, d, o);
            var restored := Restore(d.radio, d.session.saved, o.restore).1;
            && (ok <==> restored && o.stopOk)
            && (after.session.faulted <==> !restored)
            && (restored <==> !after.session.restoreRequired)
            && (restored && !o.stopOk ==> !ok && Home(r0, after))
  {
  }
}
