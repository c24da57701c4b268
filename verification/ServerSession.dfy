/**
 The worker of Server and the session machine of Session are the same session: whatever
 the other thread does in between, the steps a worker makes for one request end where one
 step of the session machine does.
 */
module ServerSession {
  import opened Outcome
  import opened Radio
  import opened Session
  import Server

  // The worker's part of the session.
  datatype Part = Part(gen: nat, active: bool, profileApplied: bool, owed: bool, faulted: bool)

  function PartOf(w: Server.Worker): Part { Part(w.gen, w.active, w.profileApplied, w.owed, w.faulted) }
  function PartIn(s: SessionState): Part { Part(s.generation, s.active, s.profileApplied, s.restoreRequired, s.faulted) }

  // How the operations of one request turn out: whether the snapshot and the begin succeed, the radio is tuned, the
  // capture is delivered, and the restore succeeds.
  datatype Turns = Turns(begin: bool, tune: bool, capture: bool, restore: bool)

  // What the request the worker is in still has to do to its session.
  datatype Fate = Over | Asks(gen: nat) | Begins(gen: nat) | Tunes | Captures | Ends

  function FateOf(pc: Server.WorkerPc): Fate {
    match pc
    case Snapshotting(gen, _) => Asks(gen)
    case WantBegin(gen, _) => Begins(gen)
    case Beginning(gen, _) => Begins(gen)
    case ApplyDestroy => Tunes
    case Applying => Tunes
    case Creating(_) => Captures
    case WantGate(_) => Captures
    case Gate(_) => Captures
    case Refilling => Captures
    case WantFinish(_) => Captures
    case Finishing(_) => Captures
    case CloseStop(_) => Ends
    case CloseRestore(_) => Ends
    case _ => Over
  }

  function Ended(p: Part, c: Turns): Part {
    p.(active := false, profileApplied := false, owed := p.owed && !c.restore, faulted := p.faulted || !c.restore)
  }

  // The session when the request is over.
  function Settled(p: Part, fate: Fate, c: Turns): Part {
    match fate
    case Over => p
    case Asks(gen) => if c.begin then Part(gen, true, false, true, p.faulted) else p
    case Begins(gen) => Part(gen, true, false, true, p.faulted)
    case Tunes => if c.tune then p.(profileApplied := true) else Ended(p, c)
    case Captures => if c.capture then p else Ended(p, c)
    case Ends => Ended(p, c)
  }

  // The choices of an action are those of the request.
  predicate Decides(s: Server.Shared, pc: Server.WorkerPc, a: Server.Action, c: Turns) {
    match pc
    case Snapshotting(_, _) => a.WGo? && (a.ok && s.buffer.None? <==> c.begin)
    case Applying => a.WGo? && (a.ok <==> c.tune)
    case Creating(_) => a.WGo? && (a.ok || !c.capture)
    case Gate(_) => s.cancelRequested ==> !c.capture
    case Refilling => a.WRefill? && (a.outcome.Broken? ==> !c.capture)
    case WantFinish(good) => good || !c.capture
    case Finishing(good) => a.WGo? && (good && a.ok <==> c.capture)
    case CloseRestore(_) => a.WGo? && (a.ok <==> c.restore)
    case _ => true
  }

  predicate Settles(w: Server.Worker, m: Server.Move, c: Turns) {
    m.Move? ==> Settled(PartOf(m.w), FateOf(m.w.pc), c) == Settled(PartOf(w), FateOf(w.pc), c)
  }

  lemma CreatingSettles(s: Server.Shared, t: nat, w: Server.Worker, power: bool, ok: bool, c: Turns)
    requires w.pc == Server.Creating(power) && (ok || !c.capture)
    ensures Settles(w, Server.GateStep(s, t, w, ok).value, c)
  {
    var m := Server.GateStep(s, t, w, ok).value;
    if ok { assert m.w == w.(pc := Server.WantGate(power)); }
    else if s.buffer.None? && !power { assert m.w == w.(pc := Server.WantFinish(false)); }
    else { assert m.w == w.(pc := Server.CloseStop(false)); }
  }

  lemma GateSettles(s: Server.Shared, t: nat, w: Server.Worker, ok: bool, c: Turns)
    requires !w.pc.Creating? && Server.GateStep(s, t, w, ok).Some? && Decides(s, w.pc, Server.WGo(t, ok), c)
    ensures Settles(w, Server.GateStep(s, t, w, ok).value, c)
  {
  }

  lemma OpeningSettles(s: Server.Shared, t: nat, w: Server.Worker, ok: bool, c: Turns)
    requires Server.OpeningStep(s, t, w, ok).Some? && Decides(s, w.pc, Server.WGo(t, ok), c)
    ensures Settles(w, Server.OpeningStep(s, t, w, ok).value, c)
  {
  }

  lemma FinishSettles(s: Server.Shared, t: nat, w: Server.Worker, ok: bool, c: Turns)
    requires Server.FinishStep(s, t, w, ok).Some? && Decides(s, w.pc, Server.WGo(t, ok), c)
    ensures Settles(w, Server.FinishStep(s, t, w, ok).value, c)
  {
  }

  lemma RetuneSettles(s: Server.Shared, t: nat, w: Server.Worker, ok: bool, c: Turns)
    requires Server.RetuneStep(s, w, ok).Some? && Decides(s, w.pc, Server.WGo(t, ok), c)
    ensures Settles(w, Server.RetuneStep(s, w, ok).value, c)
  {
  }

  lemma ClosingSettles(s: Server.Shared, t: nat, w: Server.Worker, ok: bool, c: Turns)
    requires Server.ClosingStep(s, w, ok).Some? && Decides(s, w.pc, Server.WGo(t, ok), c)
    ensures Settles(w, Server.ClosingStep(s, w, ok).value, c)
  {
  }

  lemma LeavingSettles(s: Server.Shared, t: nat, w: Server.Worker, c: Turns)
    requires Server.LeavingStep(s, t, w).Some?
    ensures Settles(w, Server.LeavingStep(s, t, w).value, c)
  {
  }

  lemma RefillSettles(s: Server.Shared, t: nat, w: Server.Worker, a: Server.Action, c: Turns)
    requires a.WRefill? && Server.WorkerMove(s, t, w, a).Some? && Decides(s, w.pc, a, c)
    ensures Settles(w, Server.WorkerMove(s, t, w, a).value, c)
  {
  }

  // Every step of a worker inside a request, in whatever shared state it meets, leaves the end of the request where
  // it was.
  lemma StepSettles(s: Server.Shared, t: nat, w: Server.Worker, a: Server.Action, c: Turns)
    requires (a.WGo? && a.t == t) || a.WRefill?
    requires Server.WorkerMove(s, t, w, a).Some? && Decides(s, w.pc, a, c)
    ensures Settles(w, Server.WorkerMove(s, t, w, a).value, c)
  {
    if a.WRefill? { RefillSettles(s, t, w, a, c); }
    else if Server.Opening(w.pc) { OpeningSettles(s, t, w, a.ok, c); }
    else if w.pc.Creating? { CreatingSettles(s, t, w, w.pc.power, a.ok, c); }
    else if Server.Gating(w.pc) { GateSettles(s, t, w, a.ok, c); }
    else if Server.Ceasing(w.pc) { FinishSettles(s, t, w, a.ok, c); }
    else if Server.Retuning(w.pc) { RetuneSettles(s, t, w, a.ok, c); }
    else if Server.Leaving(w.pc) { LeavingSettles(s, t, w, c); }
    else { ClosingSettles(s, t, w, a.ok, c); }
  }

  // The steps of one request, each in whatever shared state the other thread has left.
  datatype Turn = Turn(sh: Server.Shared, act: Server.Action)

  predicate Follows(t: nat, w: Server.Worker, turn: Turn, next: Server.Worker, c: Turns) {
    && ((turn.act.WGo? && turn.act.t == t) || turn.act.WRefill?) && Decides(turn.sh, w.pc, turn.act, c)
    && var m := Server.WorkerMove(turn.sh, t, w, turn.act); m.Some? && m.value.Move? && m.value.w == next
  }

  ghost predicate Path(t: nat, ws: seq<Server.Worker>, turns: seq<Turn>, c: Turns) {
    |ws| == |turns| + 1 && forall i :: 0 <= i < |turns| ==> Follows(t, ws[i], turns[i], ws[i + 1], c)
  }

  // When the worker is idle again, its session is what the request settled it to be.
  lemma {:induction false} PathSettles(t: nat, ws: seq<Server.Worker>, turns: seq<Turn>, c: Turns)
    requires Path(t, ws, turns, c)
    ensures var first, last := ws[0], ws[|turns|];
            && Settled(PartOf(last), FateOf(last.pc), c) == Settled(PartOf(first), FateOf(first.pc), c)
            && (last.pc.Idle? ==> PartOf(last) == Settled(PartOf(first), FateOf(first.pc), c))
    decreases |turns|
  {
    if turns != [] {
      var n := |turns| - 1;
      PathSettles(t, ws[..n + 1], turns[..n], c);
      assert Follows(t, ws[n], turns[n], ws[n + 1], c);
      StepSettles(turns[n].sh, t, ws[n], turns[n].act, c);
    }
  }

  // ----- the requests -----

  function TurnsOf(radio: Settings, saved: Settings, reply: Reply, o: Outcomes): Turns {
    Turns(o.snapshotOk && o.beginOk, reply.ProfileReply?, reply.CaptureReply? || reply.InlineReply? || reply.PowerReply?,
          Restore(radio, saved, o.restore).1)
  }

  // The worker's request, followed to its end, leaves the session where the handler does; `radio` is the radio the
  // handler's close finds.
  ghost predicate Simulates(d: Daemon, w: Server.Worker, r: Server.Request, st: Step, radio: Settings, o: Outcomes) {
    PartOf(w) == PartIn(d.session) && Server.Accept(w, r).Some? ==>
      Settled(PartOf(w), FateOf(Server.Accept(w, r).value), TurnsOf(radio, d.session.saved, st.reply, o)) == PartIn(st.after.session)
  }

  lemma StartSimulated(d: Daemon, id: nat, gen: nat, published: Option<nat>, o: Outcomes, w: Server.Worker)
    ensures Simulates(d, w, Server.RStart(gen, published), HandleStart(d, id, Some(gen), o), d.radio, o)
  {
  }

  lemma ApplySimulated(cfg: Config, be: Backend, d: Daemon, id: nat, args: ProfileArgs, o: Outcomes, w: Server.Worker)
    requires be.available && d.session.restoreRequired
    requires HandleApply(cfg, be, d, id, Some(args), o).ops != []
    ensures Simulates(d, w, Server.RApply, HandleApply(cfg, be, d, id, Some(args), o), Apply(d.radio, ProfileOf(args), o.tune).0, o)
  {
  }

  lemma CaptureSimulated(cfg: Config, be: Backend, d: Daemon, id: nat, args: CaptureArgs, o: Outcomes, w: Server.Worker)
    requires be.available && d.session.restoreRequired
    requires HandleCaptureIq(cfg, be, d, id, Some(args), o).ops != []
    ensures Simulates(d, w, Server.RCapture(false), HandleCaptureIq(cfg, be, d, id, Some(args), o), d.radio, o)
  {
  }

  lemma InlineSimulated(cfg: Config, be: Backend, d: Daemon, id: nat, args: CaptureArgs, o: Outcomes, w: Server.Worker)
    requires be.available && d.session.restoreRequired
    requires HandleInline(cfg, be, d, id, Some(args), o).ops != []
    ensures Simulates(d, w, Server.RCapture(false), HandleInline(cfg, be, d, id, Some(args), o), d.radio, o)
  {
  }

  lemma PowerSimulated(be: Backend, d: Daemon, id: nat, args: PowerArgs, o: Outcomes, w: Server.Worker)
    requires be.available && d.session.restoreRequired
    requires HandlePower(be, d, id, Some(args), o).ops != []
    ensures Simulates(d, w, Server.RCapture(true), HandlePower(be, d, id, Some(args), o), d.radio, o)
  {
  }

  lemma StopSimulated(be: Backend, d: Daemon, id: nat, o: Outcomes, w: Server.Worker)
    requires be.available && d.session.active && d.session.restoreRequired
    ensures Simulates(d, w, Server.RClose, HandleStop(be, d, id, Some(d.session.generation), o), d.radio, o)
  {
  }

  // QUIT, and the close when the connection ends.
  lemma LeaveSimulated(be: Backend, d: Daemon, id: nat, o: Outcomes, w: Server.Worker)
    requires be.available && (d.session.active ==> d.session.restoreRequired)
    ensures Simulates(d, w, Server.RLeave, CloseThen(be, d, o, [], Closing(id), Error(id, StopOrRestoreFailed)), d.radio, o)
  {
  }
}
