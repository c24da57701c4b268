/**
 What a connection of the daemon still owes the radio when it is over, and where that
 leaves the radio over the life of the server.
 */
module SessionDebt {
  import opened Outcome
  import opened Radio
  import opened Session
  import opened SessionRuns

  predicate Restores(ops: seq<RadioOp>) { exists i :: 0 <= i < |ops| && ops[i].OpRestore? }

  // Owed after a request: the session it started, or an earlier debt that no restore of this request settled.
  predicate StillOwed(r0: Settings, owed: bool, o: Outcomes, st: Step) {
    st.reply.Owned? || (owed && (Restores(st.ops) ==> RestoreLost(r0, o.restore)))
  }

  ghost predicate Accounted(r0: Settings, d: Daemon, o: Outcomes, st: Step) {
    st.after.session.restoreRequired <==> StillOwed(r0, d.session.restoreRequired, o, st)
  }

  lemma CloseOwes(be: Backend, r0: Settings, d0: Daemon, d: Daemon, o: Outcomes, before: seq<RadioOp>,
                  whenOk: Reply, whenNot: Reply)
    requires Closable(be, r0, d) && d.session == d0.session
    requires !Restores(before) && !whenOk.Owned? && !whenNot.Owned?
    ensures Accounted(r0, d0, o, CloseThen(be, d, o, before, whenOk, whenNot))
  {
    RestoreSucceeds(d.radio, d.session.saved, o.restore);
    var ops := CloseThen(be, d, o, before, whenOk, whenNot).ops;
    if d.session.restoreRequired { assert ops[|before| + 1].OpRestore?; }
  }

  lemma ApplyOwes(cfg: Config, be: Backend, r0: Settings, d: Daemon, id: nat, args: Option<ProfileArgs>, o: Outcomes)
    requires Inv(cfg, be, r0, d)
    ensures Accounted(r0, d, o, HandleApply(cfg, be, d, id, args, o))
  {
    if args.Some? && d.session.active {
      var profile := ProfileOf(args.value);
      CloseOwes(be, r0, d, d.(radio := Apply(d.radio, profile, o.tune).0), o, [OpApply(profile)],
                Error(id, ApplyFailedRestored), Error(id, ApplyFailedRestoreFault));
    }
  }

  // A capture that closes the session, in either state of the sequence counter.
  lemma CaptureOwes(cfg: Config, be: Backend, r0: Settings, d: Daemon, d1: Daemon, op: RadioOp, o: Outcomes,
                    whenOk: Reply, whenNot: Reply)
    requires Inv(cfg, be, r0, d) && (d1 == d || d1 == d.(sequence := d.sequence + 1)) && !op.OpRestore?
    requires !whenOk.Owned? && !whenNot.Owned?
    ensures Accounted(r0, d, o, CloseThen(be, d1, o, [op], whenOk, whenNot))
  {
    CloseOwes(be, r0, d, d1, o, [op], whenOk, whenNot);
  }

  lemma CaptureIqOwes(cfg: Config, be: Backend, r0: Settings, d: Daemon, id: nat, args: Option<CaptureArgs>, o: Outcomes)
    requires Inv(cfg, be, r0, d)
    ensures Accounted(r0, d, o, HandleCaptureIq(cfg, be, d, id, args, o))
  {
    if CaptureRefusal(cfg, d, args).None? {
      var d1, op := Numbered(d, o.capture), OpCaptureIq(args.value.generation);
      CaptureOwes(cfg, be, r0, d, d1, op, o, Error(id, CaptureFailedRestored), Error(id, CaptureFailedRestoreFault));
      CaptureOwes(cfg, be, r0, d, d1, op, o, Error(id, AdapterContractViolation), Error(id, AdapterContractViolation));
    }
  }

  lemma InlineOwes(cfg: Config, be: Backend, r0: Settings, d: Daemon, id: nat, args: Option<CaptureArgs>, o: Outcomes)
    requires Inv(cfg, be, r0, d)
    ensures Accounted(r0, d, o, HandleInline(cfg, be, d, id, args, o))
  {
    if CaptureRefusal(cfg, d, args).None? {
      var failure := InlineFailure(args.value, o);
      if failure.Some? {
        CaptureOwes(cfg, be, r0, d, Numbered(d, o.capture), OpCaptureIq(args.value.generation), o,
                    Error(id, failure.value.0), Error(id, failure.value.1));
      }
    }
  }

  lemma PowerOwes(cfg: Config, be: Backend, r0: Settings, d: Daemon, id: nat, args: Option<PowerArgs>, o: Outcomes)
    requires Inv(cfg, be, r0, d)
    ensures Accounted(r0, d, o, HandlePower(be, d, id, args, o))
  {
    if args.Some? && o.power.PowerFailed? {
      CaptureOwes(cfg, be, r0, d, d.(sequence := d.sequence + 1), OpCapturePower(args.value.generation), o,
                  Error(id, if o.power.timedOut then PowerTimeoutRestored else PowerFailedRestored),
                  Error(id, PowerFailedRestoreFault));
    }
  }

  lemma ControlOwes(cfg: Config, be: Backend, r0: Settings, d: Daemon, id: nat, c: Command, o: Outcomes)
    requires Inv(cfg, be, r0, d) && Mutating(c)
    ensures Accounted(r0, d, o, HandleControl(cfg, be, d, id, c, o))
  {
    match c
    case StartSession(args) =>
    case ApplyProfile(args) => ApplyOwes(cfg, be, r0, d, id, args, o);
    case CaptureIq(args) => CaptureIqOwes(cfg, be, r0, d, id, args, o);
    case CaptureIqInline(args) => InlineOwes(cfg, be, r0, d, id, args, o);
    case CapturePower(args) => PowerOwes(cfg, be, r0, d, id, args, o);
    case ExecutionStatus(args) =>
    case StopSession(args) =>
      if args.Some? { CloseOwes(be, r0, d, d, o, [], Restored(id, args.value), Error(id, StopOrRestoreFailed)); }
  }

  lemma PlainOwes(cfg: Config, be: Backend, r0: Settings, d: Daemon, id: nat, c: Command, o: Outcomes)
    requires Inv(cfg, be, r0, d) && !Mutating(c)
    ensures Accounted(r0, d, o, HandlePlain(cfg, be, d, id, c, o))
  {
    if c.Quit? { CloseOwes(be, r0, d, d, o, [], Closing(id), Error(id, StopOrRestoreFailed)); }
  }

  // The only things that change what is owed: a granted START, and a restore that is not lost.
  lemma StepOwes(cfg: Config, be: Backend, r0: Settings, d: Daemon, line: Line, o: Outcomes)
    requires Inv(cfg, be, r0, d)
    ensures Accounted(r0, d, o, Handle(cfg, be, d, line, o))
  {
    if line.Line? {
      var d1 := d.(session := d.session.(lastRequestId := line.id));
      if Mutating(line.command) { ControlOwes(cfg, be, r0, d1, line.id, line.command, o); }
      else { PlainOwes(cfg, be, r0, d1, line.id, line.command, o); }
    }
  }

  // ----- a whole connection -----

  // After the first k requests: a START was granted, and every restore since was lost.
  ghost predicate Owes(r0: Settings, t: seq<Step>, inputs: seq<Input>, k: nat)
    requires k <= |t| <= |inputs|
  {
    k > 0 && StillOwed(r0, Owes(r0, t, inputs, k - 1), inputs[k - 1].outcomes, t[k - 1])
  }

  lemma {:induction false} OwesIsRequired(cfg: Config, be: Backend, r0: Settings, d: Daemon, t: seq<Step>, inputs: seq<Input>, k: nat)
    requires k <= |t| <= |inputs| && Inv(cfg, be, r0, d) && !d.session.restoreRequired
    requires forall i :: 0 <= i < |t| ==> Honest(cfg, be, r0, Before(d, t, i), inputs[i], t[i])
    ensures Owes(r0, t, inputs, k) <==> (k > 0 && t[k - 1].after.session.restoreRequired)
  {
    if k > 0 {
      OwesIsRequired(cfg, be, r0, d, t, inputs, k - 1);
      var before := Before(d, t, k - 1);
      assert Honest(cfg, be, r0, before, inputs[k - 1], t[k - 1]);
      if k > 1 { assert Honest(cfg, be, r0, Before(d, t, k - 2), inputs[k - 2], t[k - 2]); }
      StepOwes(cfg, be, r0, before, inputs[k - 1].line, inputs[k - 1].outcomes);
    }
  }

  // The connection owes the radio when its requests are done, and the restore of its closing is lost too.
  ghost predicate EndsOwing(cfg: Config, be: Backend, radio: Settings, sequence: nat, c: Connection) {
    var t := Trace(cfg, be, Fresh(radio, sequence), c.inputs);
    |t| <= |c.inputs| && Owes(radio, t, c.inputs, |t|) && RestoreLost(radio, c.closing.restore)
  }

  // That is exactly when a connection leaves a debt behind.
  lemma DebtIffLastRestoreLost(cfg: Config, be: Backend, radio: Settings, sequence: nat, c: Connection)
    ensures Serve(cfg, be, radio, sequence, c).0.session.restoreRequired <==> EndsOwing(cfg, be, radio, sequence, c)
  {
    var d := Fresh(radio, sequence);
    var t := Trace(cfg, be, d, c.inputs);
    RunKeeps(cfg, be, radio, d, c.inputs);
    OwesIsRequired(cfg, be, radio, d, t, c.inputs, |t|);
    var last := After(d, t);
    RestoreSucceeds(last.radio, last.session.saved, c.closing.restore);
  }

  // ----- the life of the server -----

  ghost function Life(cfg: Config, be: Backend, radio: Settings, sequence: nat, cs: seq<Connection>): Settings
    decreases |cs|
  {
    if cs == [] then radio
    else
      var end := Serve(cfg, be, radio, sequence, cs[0]).0;
      Life(cfg, be, end.radio, end.sequence, cs[1..])
  }

  // Where the last connection that ended owing left the radio, or `home` when none did.
  ghost function LastOwed(cfg: Config, be: Backend, radio: Settings, sequence: nat, cs: seq<Connection>, home: Settings): Settings
    decreases |cs|
  {
    if cs == [] then home
    else
      var end := Serve(cfg, be, radio, sequence, cs[0]).0;
      LastOwed(cfg, be, end.radio, end.sequence, cs[1..], if EndsOwing(cfg, be, radio, sequence, cs[0]) then end.radio else home)
  }

  // The session state dies with the connection, so the next one snapshots what it finds: the server always ends
  // where the last unpaid connection left the radio.
  lemma {:induction false} LifeEndsAtLastDebt(cfg: Config, be: Backend, radio: Settings, sequence: nat, cs: seq<Connection>,
                                              home: Settings)
    requires Same(radio, home)
    ensures Same(Life(cfg, be, radio, sequence, cs), LastOwed(cfg, be, radio, sequence, cs, home))
    decreases |cs|
  {
    if cs != [] {
      ConnectionComesHome(cfg, be, radio, sequence, cs[0]);
      DebtIffLastRestoreLost(cfg, be, radio, sequence, cs[0]);
      var end := Serve(cfg, be, radio, sequence, cs[0]).0;
      LifeEndsAtLastDebt(cfg, be, end.radio, end.sequence, cs[1..],
                         if EndsOwing(cfg, be, radio, sequence, cs[0]) then end.radio else home);
    }
  }

  // So the radio is back after any list of connections if and only if that is where it was found.
  lemma LifeComesHomeIff(cfg: Config, be: Backend, r0: Settings, sequence: nat, cs: seq<Connection>)
    ensures Same(Life(cfg, be, r0, sequence, cs), r0) <==> Same(LastOwed(cfg, be, r0, sequence, cs, r0), r0)
  {
    LifeEndsAtLastDebt(cfg, be, r0, sequence, cs, r0);
  }

  ghost predicate NoDebt(cfg: Config, be: Backend, radio: Settings, sequence: nat, cs: seq<Connection>)
    decreases |cs|
  {
    cs != [] ==>
      && !EndsOwing(cfg, be, radio, sequence, cs[0])
      && var end := Serve(cfg, be, radio, sequence, cs[0]).0; NoDebt(cfg, be, end.radio, end.sequence, cs[1..])
  }

  lemma {:induction false} NoDebtIsHome(cfg: Config, be: Backend, radio: Settings, sequence: nat, cs: seq<Connection>, home: Settings)
    requires NoDebt(cfg, be, radio, sequence, cs)
    ensures LastOwed(cfg, be, radio, sequence, cs, home) == home
    decreases |cs|
  {
    if cs != [] {
      var end := Serve(cfg, be, radio, sequence, cs[0]).0;
      NoDebtIsHome(cfg, be, end.radio, end.sequence, cs[1..], home);
    }
  }

  lemma LifeComesHome(cfg: Config, be: Backend, r0: Settings, sequence: nat, cs: seq<Connection>)
    requires NoDebt(cfg, be, r0, sequence, cs)
    ensures Same(Life(cfg, be, r0, sequence, cs), r0)
  {
    NoDebtIsHome(cfg, be, r0, sequence, cs, r0);
    LifeEndsAtLastDebt(cfg, be, r0, sequence, cs, r0);
  }

  // ----- a debt that is forgotten -----

  const EXACT := RestoreOutcome(Exact, Exact, Exact, Exact, Exact)
  const START := Line(1, StartSession(Some(7)))
  const STOP := Line(2, StopSession(Some(7)))

  // One connection only starts a session, and its last restore leaves the sample rate elsewhere.
  ghost function Unpaid(o: Outcomes, elsewhere: nat): Connection {
    Connection([Input(START, o, true)], o.(restore := EXACT.(rate := Lost(elsewhere))))
  }

  // Another starts and stops one, and nothing fails.
  ghost function Clean(o: Outcomes): Connection { Connection([Input(START, o, true), Input(STOP, o, true)], o) }

  predicate Fine(o: Outcomes) { o.snapshotOk && o.beginOk && o.stopOk && o.restore == EXACT }

  lemma UnpaidEnds(cfg: Config, be: Backend, r0: Settings, sequence: nat, o: Outcomes, elsewhere: nat)
    requires cfg.controlled && be.available && Fine(o)
    ensures var end := Serve(cfg, be, r0, sequence, Unpaid(o, elsewhere)).0;
            end.radio == r0.(rateHz := elsewhere) && end.sequence == sequence
    ensures EndsOwing(cfg, be, r0, sequence, Unpaid(o, elsewhere))
  {
    var c, d := Unpaid(o, elsewhere), Fresh(r0, sequence);
    var s1 := Handle(cfg, be, d, START, o);
    assert s1.reply == Owned(1, 7) && s1.after.session.saved == r0;
    assert c.inputs[1..] == [];
    assert Trace(cfg, be, d, c.inputs) == [s1];
    DebtIffLastRestoreLost(cfg, be, r0, sequence, c);
  }

  lemma CleanEnds(cfg: Config, be: Backend, r0: Settings, sequence: nat, o: Outcomes)
    requires cfg.controlled && be.available && Fine(o) && r0.scanMask < 16
    ensures var (end, ok) := Serve(cfg, be, r0, sequence, Clean(o)); ok && end.radio == r0
  {
    var c, d := Clean(o), Fresh(r0, sequence);
    var s1 := Handle(cfg, be, d, START, o);
    var s2 := Handle(cfg, be, s1.after, STOP, o);
    assert s1.reply == Owned(1, 7) && s1.after.session.saved == r0;
    assert s2.reply == Restored(2, 7) && s2.after.radio == r0;
    assert c.inputs[1..] == [Input(STOP, o, true)] && c.inputs[1..][1..] == [];
    assert Trace(cfg, be, s1.after, c.inputs[1..]) == [s2];
    assert Trace(cfg, be, d, c.inputs) == [s1] + [s2];
  }

  // From any radio: the first connection loses its restore, the second is clean and says so, and the radio stays
  // where the lost restore had left it.
  lemma DebtIsForgotten(cfg: Config, be: Backend, r0: Settings, sequence: nat, o: Outcomes)
    requires cfg.controlled && be.available && Fine(o) && r0.scanMask < 16
    ensures var cs := [Unpaid(o, r0.rateHz + 1), Clean(o)];
            var first := Serve(cfg, be, r0, sequence, cs[0]).0;
            && EndsOwing(cfg, be, r0, sequence, cs[0])
            && Serve(cfg, be, first.radio, first.sequence, cs[1]).1
            && !Same(Life(cfg, be, r0, sequence, cs), r0)
  {
    var cs := [Unpaid(o, r0.rateHz + 1), Clean(o)];
    UnpaidEnds(cfg, be, r0, sequence, o, r0.rateHz + 1);
    var first := Serve(cfg, be, r0, sequence, cs[0]).0;
    CleanEnds(cfg, be, first.radio, first.sequence, o);
    var second := Serve(cfg, be, first.radio, first.sequence, cs[1]).0;
    assert cs[1..] == [Clean(o)] && cs[1..][1..] == [];
    assert Life(cfg, be, first.radio, first.sequence, cs[1..]) == Life(cfg, be, second.radio, second.sequence, []);
  }
}
