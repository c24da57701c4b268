/**
 The daemon's threads: the accept loop of run_server with handle_cancel_client, and the
 workers it spawns (client_worker, serve_client), over runtime->mutex and the adapter's
 cancel_mutex.  Each action is one lock acquisition or one access to shared data, and
 the actions of all threads interleave freely.  Acceptor and workers are modelled on
 values, so that a run is a list of actions.
 */
module Server {
  import opened Outcome

  datatype Holder = Free | ByAcceptor | ByWorker(tid: nat)

  // Where a worker is.  `Want...` states wait for a mutex; the state after one holds it.
  datatype WorkerPc =
    | Idle                                                  // between two requests
    | Snapshotting(gen: nat, published: Option<nat>)        // START_SESSION passed its checks
    | WantBegin(gen: nat, published: Option<nat>) | Beginning(gen: nat, published: Option<nat>)
    | WantPublish(published: Option<nat>) | Publishing(published: Option<nat>)
    | ApplyDestroy | Applying                               // APPLY_PROFILE
    | Creating(power: bool)                                 // a capture, before its buffer exists
    | WantGate(power: bool) | Gate(power: bool)
    | Refilling                                             // inside the refill loop
    | WantFinish(ok: bool) | Finishing(ok: bool)
    | CloseStop(leaving: bool) | CloseRestore(leaving: bool) // sdrd_session_close
    | WantEnd | Ending                                      // end of serve_client
    | WantExit | Exiting                                    // end of client_worker

  // A session of a connection: the generation it runs under, and the number serve_client scans for publication,
  // if it scans one.
  datatype Start = Start(gen: nat, published: Option<nat>)

  // The part of sdrd_session_t that decides what the worker may do; `started` lists the sessions it has begun.
  datatype Worker = Worker(
    pc: WorkerPc, gen: nat, active: bool, profileApplied: bool, owed: bool, faulted: bool, started: seq<Start>)

  datatype AcceptorPc =
    | Accepting
    | WantSpawn | SpawnCheck | ThreadCreate | WantUndo | Undoing
    | WantCancel(g: nat) | CancelCheck(g: nat) | WantFlag(g: nat) | SetFlag(g: nat)
    | TestBuffer(g: nat) | CancelBuffer(g: nat) | CancelUnlock

  // runtime, adapter, both mutexes and the acceptor.  `destroyed`, `cancelledBy` and `flaggedBy` record
  // history: the buffers freed, which request cancelled a buffer, which request raised the flag.
  datatype Shared = Shared(
    workerActive: bool, activeGen: nat, runtimeMutex: Holder,
    buffer: Option<nat>, captureActive: bool, cancelRequested: bool, cancelMutex: Holder,
    acceptor: AcceptorPc, nextBuffer: nat, destroyed: set<nat>, cancelledBy: map<nat, nat>, flaggedBy: nat)

  datatype State = State(sh: Shared, workers: map<nat, Worker>, nextTid: nat)

  const REST := Shared(false, 0, Free, None, false, false, Free, Accepting, 0, {}, map[], 0)
  const INIT := State(REST, map[], 0)
  const NEWBORN := Worker(Idle, 0, false, false, false, false, [])

  datatype RefillOutcome = More | Enough | Broken

  // One action; the arguments are the choices of the client and of the foreign calls.
  datatype Action =
    | AConnect | ACancel(g: nat) | AGo(ok: bool)
    | WRequest(t: nat, request: Request) | WRefill(t: nat, outcome: RefillOutcome) | WGo(t: nat, ok: bool)

  datatype Request = RStart(gen: nat, published: Option<nat>) | RApply | RCapture(power: bool) | RClose | RLeave

  // destroy_buffer; a cancel before it touches the same live buffer and adds nothing.
  function Destroy(s: Shared): Shared {
    if s.buffer.None? then s else s.(buffer := None, destroyed := s.destroyed + {s.buffer.value})
  }

  // A connection being handed to a new worker.  The second part says whether the worker was created.
  function SpawnStep(s: Shared, ok: bool): Option<(Shared, bool)> {
    match s.acceptor
    case WantSpawn => if s.runtimeMutex.Free? then Some((s.(runtimeMutex := ByAcceptor, acceptor := SpawnCheck), false)) else None
    case SpawnCheck =>
      if s.workerActive then Some((s.(runtimeMutex := Free, acceptor := Accepting), false))
      else Some((s.(workerActive := true, runtimeMutex := Free, acceptor := ThreadCreate), false))
    case ThreadCreate => if ok then Some((s.(acceptor := Accepting), true)) else Some((s.(acceptor := WantUndo), false))
    case WantUndo => if s.runtimeMutex.Free? then Some((s.(runtimeMutex := ByAcceptor, acceptor := Undoing), false)) else None
    case Undoing => Some((s.(workerActive := false, runtimeMutex := Free, acceptor := Accepting), false))
    case _ => None
  }

  // A cancel request: handle_cancel_client, with adapter_cancel inside it.
  function CancelStep(s: Shared): Option<Shared> {
    match s.acceptor
    case WantCancel(g) => if s.runtimeMutex.Free? then Some(s.(runtimeMutex := ByAcceptor, acceptor := CancelCheck(g))) else None
    case CancelCheck(g) =>
      if s.activeGen != g then Some(s.(runtimeMutex := Free, acceptor := Accepting)) else Some(s.(acceptor := WantFlag(g)))
    case WantFlag(g) => if s.cancelMutex.Free? then Some(s.(cancelMutex := ByAcceptor, acceptor := SetFlag(g))) else None
    case SetFlag(g) => Some(s.(cancelRequested := true, flaggedBy := g, acceptor := TestBuffer(g)))
    case TestBuffer(g) =>
      Some(s.(acceptor := if s.captureActive && s.buffer.Some? then CancelBuffer(g) else CancelUnlock))
    case CancelBuffer(g) =>
      // buffer_cancel on whatever adapter->buffer is now
      if s.buffer.None? then None
      else Some(s.(cancelledBy := s.cancelledBy[s.buffer.value := g], acceptor := CancelUnlock))
    case CancelUnlock => Some(s.(cancelMutex := Free, runtimeMutex := Free, acceptor := Accepting))
    case _ => None
  }

  datatype Move = Move(sh: Shared, w: Worker) | Gone(sh: Shared)

  function To(s: Shared, w: Worker, pc: WorkerPc): Option<Move> { Some(Move(s, w.(pc := pc))) }

  // handle_start and the publication of the generation in serve_client.
  function OpeningStep(s: Shared, t: nat, w: Worker, ok: bool): Option<Move> {
    match w.pc
    case Snapshotting(gen, published) =>
      // adapter_snapshot answers busy while a buffer exists
      To(s, w, if s.buffer.Some? || !ok then Idle else WantBegin(gen, published))
    case WantBegin(gen, published) =>
      if s.cancelMutex.Free? then To(s.(cancelMutex := ByWorker(t)), w, Beginning(gen, published)) else None
    case Beginning(gen, published) =>
      To(s.(cancelRequested := false, captureActive := false, cancelMutex := Free),
         w.(gen := gen, active := true, profileApplied := false, owed := true, started := w.started + [Start(gen, published)]),
         if published.Some? then WantPublish(published) else Idle)
    case WantPublish(published) =>
      if s.runtimeMutex.Free? then To(s.(runtimeMutex := ByWorker(t)), w, Publishing(published)) else None
    case Publishing(published) =>
      To(s.(activeGen := if published.Some? then published.value else s.activeGen, runtimeMutex := Free), w, Idle)
    case _ => None
  }

  // A capture up to the test of cancel_requested.
  function GateStep(s: Shared, t: nat, w: Worker, ok: bool): Option<Move> {
    match w.pc
    case Creating(power) =>
      if s.buffer.Some? then To(s, w, if ok then WantGate(power) else CloseStop(false))
      else if ok then To(s.(buffer := Some(s.nextBuffer), nextBuffer := s.nextBuffer + 1), w, WantGate(power))
      else To(s, w, if power then CloseStop(false) else WantFinish(false))
    case WantGate(power) => if s.cancelMutex.Free? then To(s.(cancelMutex := ByWorker(t)), w, Gate(power)) else None
    case Gate(power) =>
      if s.cancelRequested then To(s.(cancelMutex := Free), w, if power then CloseStop(false) else WantFinish(false))
      else To(s.(captureActive := true, cancelMutex := Free), w, Refilling)
    case _ => None
  }

  // The end of a capture.
  function FinishStep(s: Shared, t: nat, w: Worker, ok: bool): Option<Move> {
    match w.pc
    case WantFinish(good) => if s.cancelMutex.Free? then To(s.(cancelMutex := ByWorker(t)), w, Finishing(good)) else None
    case Finishing(good) =>
      To(s.(captureActive := false, cancelMutex := Free), w, if good && ok then Idle else CloseStop(false))
    case _ => None
  }

  // A retune.
  function RetuneStep(s: Shared, w: Worker, ok: bool): Option<Move> {
    match w.pc
    case ApplyDestroy => To(Destroy(s), w, Applying)
    case Applying => To(s, if ok then w.(profileApplied := true) else w, if ok then Idle else CloseStop(false))
    case _ => None
  }

  // sdrd_session_close.
  function ClosingStep(s: Shared, w: Worker, ok: bool): Option<Move> {
    match w.pc
    case CloseStop(leaving) => To(Destroy(s), w, CloseRestore(leaving))
    case CloseRestore(leaving) =>
      To(Destroy(s), w.(active := false, profileApplied := false, owed := w.owed && !ok, faulted := w.faulted || !ok),
         if leaving then WantEnd else Idle)
    case _ => None
  }

  // The ends of serve_client and of client_worker.
  function LeavingStep(s: Shared, t: nat, w: Worker): Option<Move> {
    match w.pc
    case WantEnd => if s.runtimeMutex.Free? then To(s.(runtimeMutex := ByWorker(t)), w, Ending) else None
    case Ending => To(s.(activeGen := 0, runtimeMutex := Free), w, WantExit)
    case WantExit => if s.runtimeMutex.Free? then To(s.(runtimeMutex := ByWorker(t)), w, Exiting) else None
    case Exiting => Some(Gone(s.(activeGen := 0, workerActive := false, runtimeMutex := Free)))
    case _ => None
  }

  predicate Opening(pc: WorkerPc) {
    pc.Snapshotting? || pc.WantBegin? || pc.Beginning? || pc.WantPublish? || pc.Publishing?
  }
  predicate Gating(pc: WorkerPc) { pc.Creating? || pc.WantGate? || pc.Gate? }
  predicate Ceasing(pc: WorkerPc) { pc.WantFinish? || pc.Finishing? }
  predicate Retuning(pc: WorkerPc) { pc.ApplyDestroy? || pc.Applying? }
  predicate Leaving(pc: WorkerPc) { pc.WantEnd? || pc.Ending? || pc.WantExit? || pc.Exiting? }
  predicate Cancelling(pc: AcceptorPc) {
    pc.WantCancel? || pc.CancelCheck? || pc.WantFlag? || AcceptorHoldsCancel(pc)
  }

  // Worker t's next action inside a request.
  function WorkerStep(s: Shared, t: nat, w: Worker, ok: bool): Option<Move> {
    if Opening(w.pc) then OpeningStep(s, t, w, ok)
    else if Gating(w.pc) then GateStep(s, t, w, ok)
    else if Ceasing(w.pc) then FinishStep(s, t, w, ok)
    else if Retuning(w.pc) then RetuneStep(s, w, ok)
    else if Leaving(w.pc) then LeavingStep(s, t, w)
    else ClosingStep(s, w, ok)
  }

  // The acceptor's next action inside a request.
  function AcceptorStep(s: Shared, ok: bool): Option<(Shared, bool)> {
    if !Cancelling(s.acceptor) then SpawnStep(s, ok)
    else match CancelStep(s)
      case None => None
      case Some(after) => Some((after, false))
  }

  // A request read while idle; None when the session refuses it.
  function Accept(w: Worker, r: Request): Option<WorkerPc> {
    if !w.pc.Idle? then None
    else match r
      case RStart(gen, published) => if gen != 0 && !w.faulted && !w.active then Some(Snapshotting(gen, published)) else None
      case RApply => if w.active then Some(ApplyDestroy) else None
      case RCapture(power) => if w.active && w.profileApplied then Some(Creating(power)) else None
      case RClose => if w.active || w.owed then Some(CloseStop(false)) else None
      case RLeave => Some(if w.active || w.owed then CloseStop(true) else WantEnd)
  }

  function WorkerMove(s: Shared, t: nat, w: Worker, a: Action): Option<Move> {
    match a
    case WGo(_, ok) => WorkerStep(s, t, w, ok)
    case WRefill(_, outcome) =>
      if w.pc.Refilling? then To(s, w, if outcome.More? then Refilling else WantFinish(outcome.Enough?)) else None
    case WRequest(_, r) => if Accept(w, r).Some? then To(s, w, Accept(w, r).value) else None
    case _ => None
  }

  predicate ByAcceptorThread(a: Action) { a.AConnect? || a.ACancel? || a.AGo? }

  function AcceptorMove(s: Shared, a: Action): Option<(Shared, bool)> {
    match a
    case AConnect => if s.acceptor.Accepting? then Some((s.(acceptor := WantSpawn), false)) else None
    case ACancel(g) => if s.acceptor.Accepting? && g != 0 then Some((s.(acceptor := WantCancel(g)), false)) else None
    case AGo(ok) => AcceptorStep(s, ok)
    case _ => None
  }

  // None: the action is not possible in this state.
  function Do(s: State, a: Action): Option<State> {
    if ByAcceptorThread(a) then
      match AcceptorMove(s.sh, a)
      case None => None
      case Some((sh, spawned)) =>
        Some(if spawned then State(sh, s.workers[s.nextTid := NEWBORN], s.nextTid + 1) else s.(sh := sh))
    else if a.t !in s.workers then None
    else match WorkerMove(s.sh, a.t, s.workers[a.t], a)
      case None => None
      case Some(Move(sh, w)) => Some(s.(sh := sh, workers := s.workers[a.t := w]))
      case Some(Gone(sh)) => Some(s.(sh := sh, workers := s.workers - {a.t}))
  }

  // ----- the invariant -----

  predicate AcceptorHoldsRuntime(pc: AcceptorPc) {
    pc.SpawnCheck? || pc.Undoing? || pc.CancelCheck? || pc.WantFlag? || AcceptorHoldsCancel(pc)
  }
  predicate AcceptorHoldsCancel(pc: AcceptorPc) { pc.SetFlag? || pc.TestBuffer? || pc.CancelBuffer? || pc.CancelUnlock? }
  predicate WorkerHoldsRuntime(pc: WorkerPc) { pc.Publishing? || pc.Ending? || pc.Exiting? }
  predicate WorkerHoldsCancel(pc: WorkerPc) { pc.Beginning? || pc.Gate? || pc.Finishing? }

  ghost predicate Common(s: Shared) {
    // each mutex is held by the acceptor exactly inside its sections
    && (s.runtimeMutex.ByAcceptor? <==> AcceptorHoldsRuntime(s.acceptor))
    && (s.cancelMutex.ByAcceptor? <==> AcceptorHoldsCancel(s.acceptor))
    && (s.captureActive ==> s.buffer.Some?)
    // the cancel request in progress
    && (s.acceptor.CancelBuffer? ==> s.captureActive)
    && (s.acceptor.TestBuffer? || s.acceptor.CancelBuffer? ==> s.cancelRequested)
    && (s.captureActive && s.cancelRequested && !s.acceptor.TestBuffer? && !s.acceptor.CancelBuffer?
        ==> s.buffer.value in s.cancelledBy)
  }

  // Buffers are created once and freed once.
  ghost predicate Buffers(s: Shared) {
    && (s.buffer.Some? ==> s.buffer.value !in s.destroyed && s.buffer.value < s.nextBuffer)
    && (forall b :: b in s.destroyed ==> b < s.nextBuffer)
    && (forall b :: b in s.cancelledBy ==> b < s.nextBuffer)
  }

  // What the position of the worker says about the shared state.
  ghost predicate Working(s: Shared, t: nat, w: Worker) {
    var pc := w.pc;
    && s.workerActive
    && !(s.acceptor.ThreadCreate? || s.acceptor.WantUndo? || s.acceptor.Undoing?)
    && (WorkerHoldsRuntime(pc) ==> s.runtimeMutex == ByWorker(t))
    && (WorkerHoldsCancel(pc) ==> s.cancelMutex == ByWorker(t))
    && (s.runtimeMutex.ByWorker? ==> WorkerHoldsRuntime(pc) && s.runtimeMutex.tid == t)
    && (s.cancelMutex.ByWorker? ==> WorkerHoldsCancel(pc) && s.cancelMutex.tid == t)
    && (s.buffer.Some? ==> w.active)
    && (pc.Snapshotting? || pc.WantBegin? || pc.Beginning? || pc.WantEnd? || pc.Ending? || pc.WantExit? || pc.Exiting?
        ==> !w.active)
    && (pc.ApplyDestroy? || pc.Applying? || pc.Creating? || pc.WantFinish? || pc.Finishing? ==> w.active)
    && (pc.WantGate? || pc.Gate? || pc.Refilling? ==> w.active && s.buffer.Some?)
    && (pc.CloseRestore? ==> s.buffer.None?)
    && (pc.Refilling? ==> s.captureActive)
    && (s.captureActive ==> pc.Refilling? || pc.WantFinish? || pc.Finishing?)
  }

  // No worker: the adapter is at rest and nobody can be cancelled.
  ghost predicate Resting(s: Shared) {
    && !s.runtimeMutex.ByWorker? && !s.cancelMutex.ByWorker?
    && s.activeGen == 0 && s.buffer.None? && !s.captureActive
    && (s.workerActive <==> s.acceptor.ThreadCreate? || s.acceptor.WantUndo? || s.acceptor.Undoing?)
  }

  ghost predicate Inv(s: State) {
    && Common(s.sh) && Buffers(s.sh)
    && (forall t, u :: t in s.workers && u in s.workers ==> t == u)
    && (forall t :: t in s.workers ==> Working(s.sh, t, s.workers[t]))
    && (s.workers == map[] ==> Resting(s.sh))
  }

  // `t` and `w` are the worker, if there is one.
  ghost predicate AcceptorKept(s: Shared, after: Shared, spawned: bool, t: nat, w: Worker) {
    && Common(after)
    && (Working(s, t, w) ==> !spawned && Working(after, t, w))
    && (Resting(s) ==> if spawned then Working(after, t, NEWBORN) else Resting(after))
  }

  lemma CancelKeeps(s: Shared, t: nat, w: Worker)
    requires Common(s) && CancelStep(s).Some?
    ensures AcceptorKept(s, CancelStep(s).value, false, t, w)
  {
  }

  lemma SpawnKeeps(s: Shared, ok: bool, t: nat, w: Worker)
    requires Common(s) && SpawnStep(s, ok).Some?
    ensures AcceptorKept(s, SpawnStep(s, ok).value.0, SpawnStep(s, ok).value.1, t, w)
  {
  }

  lemma SpawnTouches(s: Shared, ok: bool)
    requires SpawnStep(s, ok).Some?
    ensures var after := SpawnStep(s, ok).value.0; SameBuffers(s, after) && after.cancelRequested == s.cancelRequested
  {
  }

  lemma CancelTouches(s: Shared)
    requires CancelStep(s).Some?
    ensures var after := CancelStep(s).value; BufferStep(s, after) && (s.cancelRequested ==> after.cancelRequested)
  {
  }

  lemma AcceptorTouches(s: Shared, a: Action)
    requires AcceptorMove(s, a).Some?
    ensures var after := AcceptorMove(s, a).value.0;
            BufferStep(s, after) && (s.cancelRequested ==> after.cancelRequested)
  {
    if a.AGo? {
      if Cancelling(s.acceptor) { CancelTouches(s); } else { SpawnTouches(s, a.ok); }
    }
  }

  lemma AcceptorMoveKeeps(s: Shared, a: Action, t: nat, w: Worker)
    requires Common(s) && AcceptorMove(s, a).Some?
    ensures AcceptorKept(s, AcceptorMove(s, a).value.0, AcceptorMove(s, a).value.1, t, w)
  {
    if a.AGo? {
      if Cancelling(s.acceptor) { CancelKeeps(s, t, w); } else { SpawnKeeps(s, a.ok, t, w); }
    }
  }

  // What a step may do to the buffers.
  ghost predicate BufferStep(s: Shared, after: Shared) {
    || SameBuffers(s, after)
    || SameBuffers(Destroy(s), after)
    || (s.buffer.None? && SameBuffers(s.(buffer := Some(s.nextBuffer), nextBuffer := s.nextBuffer + 1), after))
    || (s.buffer.Some? && after.cancelledBy.Keys == s.cancelledBy.Keys + {s.buffer.value}
        && SameBuffers(s.(cancelledBy := after.cancelledBy), after))
  }

  predicate SameBuffers(s: Shared, after: Shared) {
    && after.buffer == s.buffer && after.nextBuffer == s.nextBuffer
    && after.destroyed == s.destroyed && after.cancelledBy == s.cancelledBy
  }

  lemma BufferStepKeeps(s: Shared, after: Shared)
    requires Buffers(s) && BufferStep(s, after)
    ensures Buffers(after)
  {
  }

  // A worker's step clears cancel_requested only in begin_session and passes the gate only without it.
  ghost predicate FlagKept(s: Shared, w: Worker, m: Move) {
    s.cancelRequested && !w.pc.Beginning? ==>
      m.sh.cancelRequested && (m.Move? && m.w.pc.Refilling? ==> w.pc.Refilling?)
  }

  ghost predicate WorkerKept(s: Shared, t: nat, w: Worker, m: Move) {
    && Common(m.sh) && (if m.Gone? then Resting(m.sh) else Working(m.sh, t, m.w))
    && BufferStep(s, m.sh) && FlagKept(s, w, m)
  }

  lemma OpeningTouches(s: Shared, t: nat, w: Worker, ok: bool)
    requires OpeningStep(s, t, w, ok).Some?
    ensures BufferStep(s, OpeningStep(s, t, w, ok).value.sh) && FlagKept(s, w, OpeningStep(s, t, w, ok).value)
  {
  }

  lemma BeginningKeeps(s: Shared, t: nat, w: Worker, ok: bool)
    requires Common(s) && Working(s, t, w) && w.pc.Beginning?
    ensures WorkerKept(s, t, w, OpeningStep(s, t, w, ok).value)
  {
    OpeningTouches(s, t, w, ok);
  }

  lemma OpeningKeeps(s: Shared, t: nat, w: Worker, ok: bool)
    requires Common(s) && Working(s, t, w) && !w.pc.Beginning? && OpeningStep(s, t, w, ok).Some?
    ensures WorkerKept(s, t, w, OpeningStep(s, t, w, ok).value)
  {
    OpeningTouches(s, t, w, ok);
  }

  lemma GateKeeps(s: Shared, t: nat, w: Worker, ok: bool)
    requires Common(s) && Working(s, t, w) && GateStep(s, t, w, ok).Some?
    ensures WorkerKept(s, t, w, GateStep(s, t, w, ok).value)
  {
  }

  lemma FinishKeeps(s: Shared, t: nat, w: Worker, ok: bool)
    requires Common(s) && Working(s, t, w) && FinishStep(s, t, w, ok).Some?
    ensures WorkerKept(s, t, w, FinishStep(s, t, w, ok).value)
  {
  }

  lemma LeavingKeeps(s: Shared, t: nat, w: Worker)
    requires Common(s) && Working(s, t, w) && LeavingStep(s, t, w).Some?
    ensures WorkerKept(s, t, w, LeavingStep(s, t, w).value)
  {
  }

  lemma RetuneKeeps(s: Shared, t: nat, w: Worker, ok: bool)
    requires Common(s) && Working(s, t, w) && RetuneStep(s, w, ok).Some?
    ensures WorkerKept(s, t, w, RetuneStep(s, w, ok).value)
  {
  }

  lemma ClosingKeeps(s: Shared, t: nat, w: Worker, ok: bool)
    requires Common(s) && Working(s, t, w) && ClosingStep(s, w, ok).Some?
    ensures WorkerKept(s, t, w, ClosingStep(s, w, ok).value)
  {
  }

  lemma RequestKeeps(s: Shared, t: nat, w: Worker, a: Action)
    requires Common(s) && Working(s, t, w) && !a.WGo? && WorkerMove(s, t, w, a).Some?
    ensures WorkerKept(s, t, w, WorkerMove(s, t, w, a).value)
  {
  }

  lemma WorkerMoveKeeps(s: Shared, t: nat, w: Worker, a: Action)
    requires Common(s) && Working(s, t, w) && WorkerMove(s, t, w, a).Some?
    ensures WorkerKept(s, t, w, WorkerMove(s, t, w, a).value)
  {
    if !a.WGo? { RequestKeeps(s, t, w, a); }
    else if w.pc.Beginning? { BeginningKeeps(s, t, w, a.ok); }
    else if Opening(w.pc) { OpeningKeeps(s, t, w, a.ok); }
    else if Gating(w.pc) { GateKeeps(s, t, w, a.ok); }
    else if Ceasing(w.pc) { FinishKeeps(s, t, w, a.ok); }
    else if Retuning(w.pc) { RetuneKeeps(s, t, w, a.ok); }
    else if Leaving(w.pc) { LeavingKeeps(s, t, w); }
    else { ClosingKeeps(s, t, w, a.ok); }
  }

  lemma StepKeeps(s: State, a: Action)
    requires Inv(s) && Do(s, a).Some?
    ensures Inv(Do(s, a).value)
  {
    var after := Do(s, a).value;
    if ByAcceptorThread(a) {
      AcceptorTouches(s.sh, a);
      if s.workers == map[] {
        AcceptorMoveKeeps(s.sh, a, s.nextTid, NEWBORN);
        assert forall t :: t in after.workers ==> t == s.nextTid && after.workers[t] == NEWBORN;
        if AcceptorMove(s.sh, a).value.1 { assert s.nextTid in after.workers; }
      } else {
        var t :| t in s.workers;
        assert Working(s.sh, t, s.workers[t]);
        AcceptorMoveKeeps(s.sh, a, t, s.workers[t]);
        assert after.workers == s.workers;
      }
    } else {
      var t := a.t;
      WorkerMoveKeeps(s.sh, t, s.workers[t], a);
      assert forall u :: u in after.workers ==> u == t;
      if WorkerMove(s.sh, t, s.workers[t], a).value.Gone? { assert after.workers == map[]; }
      else { assert t in after.workers; }
    }
    BufferStepKeeps(s.sh, after.sh);
  }

  // ----- runs -----

  function Run(s: State, acts: seq<Action>): Option<State>
    decreases |acts|
  {
    if acts == [] then Some(s)
    else match Do(s, acts[0])
      case None => None
      case Some(next) => Run(next, acts[1..])
  }

  lemma {:induction false} RunKeeps(s: State, acts: seq<Action>)
    requires Inv(s) && Run(s, acts).Some?
    ensures Inv(Run(s, acts).value)
    decreases |acts|
  {
    if acts != [] {
      StepKeeps(s, acts[0]);
      RunKeeps(Do(s, acts[0]).value, acts[1..]);
    }
  }

  // In every interleaving from the start of the server: at most one worker exists, and without
  // worker_active there is none, no generation is published and no buffer lives; buffer_cancel and
  // buffer_refill meet a buffer that exists and was not freed; capture_active implies that buffer;
  // START never finds the adapter busy; and once a cancel request has passed its buffer test, a
  // capture in the refill loop has its buffer cancelled.
  lemma ServerIsSafe(acts: seq<Action>)
    requires Run(INIT, acts).Some?
    ensures var s := Run(INIT, acts).value;
            && (forall t, u :: t in s.workers && u in s.workers ==> t == u)
            && (!s.sh.workerActive ==> s.workers == map[] && s.sh.activeGen == 0 && s.sh.buffer.None?)
            && (s.sh.acceptor.CancelBuffer? ==> s.sh.buffer.Some? && s.sh.buffer.value !in s.sh.destroyed)
            && (s.sh.captureActive ==> s.sh.buffer.Some? && s.sh.buffer.value !in s.sh.destroyed)
            && forall t :: t in s.workers ==>
                 && (s.workers[t].pc.Refilling? ==> s.sh.buffer.Some? && s.sh.buffer.value !in s.sh.destroyed)
                 && (s.workers[t].pc.Snapshotting? ==> s.sh.buffer.None?)
                 && (s.workers[t].pc.Refilling? && s.sh.cancelRequested
                     && !s.sh.acceptor.TestBuffer? && !s.sh.acceptor.CancelBuffer?
                     ==> s.sh.buffer.value in s.sh.cancelledBy)
  {
    RunKeeps(INIT, acts);
    var s := Run(INIT, acts).value;
    if s.workers != map[] {
      var t :| t in s.workers;
      assert Working(s.sh, t, s.workers[t]);
    }
  }

  // The actions that clear cancel_requested: a worker finishing begin_session.
  predicate Begins(s: State, a: Action) {
    a.WGo? && a.t in s.workers && s.workers[a.t].pc.Beginning?
  }

  ghost predicate NoBegin(s: State, acts: seq<Action>)
    decreases |acts|
  {
    acts != [] ==> !Begins(s, acts[0]) && (Do(s, acts[0]).Some? ==> NoBegin(Do(s, acts[0]).value, acts[1..]))
  }

  // Once cancel_requested is set, no capture enters its refill loop until the next begin_session:
  // whoever is in the loop afterwards was in it already.
  lemma {:induction false} CancelSticks(s: State, acts: seq<Action>)
    requires Inv(s) && s.sh.cancelRequested && NoBegin(s, acts) && Run(s, acts).Some?
    ensures var after := Run(s, acts).value;
            && after.sh.cancelRequested
            && forall t :: t in after.workers && after.workers[t].pc.Refilling? ==>
                 t in s.workers && s.workers[t].pc.Refilling?
    decreases |acts|
  {
    if acts != [] {
      var a, next := acts[0], Do(s, acts[0]).value;
      StepKeeps(s, a);
      if !ByAcceptorThread(a) { WorkerMoveKeeps(s.sh, a.t, s.workers[a.t], a); } else { AcceptorTouches(s.sh, a); }
      CancelSticks(next, acts[1..]);
    }
  }

  // ----- what a failure leads to -----

  // An operation of the request worker t is in fails: a retune, a buffer that is not created, the gate that a cancel
  // closes, or a broken refill.
  predicate Fails(s: Shared, w: Worker, a: Action) {
    match w.pc
    case Applying => a.WGo? && !a.ok
    case Creating(_) => a.WGo? && !a.ok
    case Gate(_) => s.cancelRequested
    case Refilling => a.WRefill? && a.outcome.Broken?
    case _ => false
  }

  // On the way to a closed session, or there.
  predicate Doomed(w: Worker) {
    match w.pc
    case WantFinish(good) => !good
    case Finishing(good) => !good
    case CloseStop(leaving) => !leaving
    case CloseRestore(leaving) => !leaving
    case Idle => !w.active
    case _ => false
  }

  predicate AsksNothing(acts: seq<Action>, t: nat) { forall i :: 0 <= i < |acts| ==> !(acts[i].WRequest? && acts[i].t == t) }

  lemma FailureDooms(s: Shared, t: nat, w: Worker, a: Action)
    requires Fails(s, w, a) && WorkerMove(s, t, w, a).Some? && !a.WRequest?
    ensures WorkerMove(s, t, w, a).value.Move? && Doomed(WorkerMove(s, t, w, a).value.w)
  {
  }

  lemma DoomStays(s: Shared, t: nat, w: Worker, a: Action)
    requires Doomed(w) && WorkerMove(s, t, w, a).Some? && !a.WRequest?
    ensures WorkerMove(s, t, w, a).value.Move? && Doomed(WorkerMove(s, t, w, a).value.w)
  {
  }

  lemma {:induction false} DoomLasts(s: State, acts: seq<Action>, t: nat)
    requires Inv(s) && t in s.workers && Doomed(s.workers[t]) && AsksNothing(acts, t) && Run(s, acts).Some?
    ensures t in Run(s, acts).value.workers && Doomed(Run(s, acts).value.workers[t])
    decreases |acts|
  {
    if acts != [] {
      var a, next := acts[0], Do(s, acts[0]).value;
      assert !(acts[0].WRequest? && acts[0].t == t);
      StepKeeps(s, a);
      if ByAcceptorThread(a) { AcceptorMoveKeeps(s.sh, a, t, s.workers[t]); }
      else if a.t == t { DoomStays(s.sh, t, s.workers[t], a); }
      DoomLasts(next, acts[1..], t);
    }
  }

  // In every run, whatever the other thread does after a failure: the worker does not come back to its client before
  // the session is closed, and then the connection goes on.
  lemma FailureClosesSession(past: seq<Action>, a: Action, acts: seq<Action>, t: nat)
    requires Run(INIT, past).Some? && t in Run(INIT, past).value.workers
    requires !ByAcceptorThread(a) && !a.WRequest? && a.t == t
    requires Fails(Run(INIT, past).value.sh, Run(INIT, past).value.workers[t], a) && Do(Run(INIT, past).value, a).Some?
    requires AsksNothing(acts, t) && Run(Do(Run(INIT, past).value, a).value, acts).Some?
    ensures var end := Run(Do(Run(INIT, past).value, a).value, acts).value;
            && t in end.workers && (Ceasing(end.workers[t].pc) || end.workers[t].pc.CloseStop? || end.workers[t].pc.CloseRestore?
                                    || (end.workers[t].pc.Idle? && !end.workers[t].active))
  {
    var s := Run(INIT, past).value;
    RunKeeps(INIT, past);
    StepKeeps(s, a);
    FailureDooms(s.sh, t, s.workers[t], a);
    DoomLasts(Do(s, a).value, acts, t);
  }

  // On the way out.
  predicate Departing(pc: WorkerPc) {
    match pc
    case CloseStop(leaving) => leaving
    case CloseRestore(leaving) => leaving
    case _ => Leaving(pc)
  }

  predicate Departed(s: State, t: nat) { t < s.nextTid && (t in s.workers ==> Departing(s.workers[t].pc)) }

  // Numbers of workers are not used twice.
  predicate Numbered(s: State) { forall t :: t in s.workers ==> t < s.nextTid }

  lemma {:induction false} RunNumbered(s: State, acts: seq<Action>)
    requires Numbered(s) && Run(s, acts).Some?
    ensures Numbered(Run(s, acts).value)
    decreases |acts|
  {
    if acts != [] { RunNumbered(Do(s, acts[0]).value, acts[1..]); }
  }

  lemma DepartureStays(s: Shared, t: nat, w: Worker, a: Action)
    requires Departing(w.pc) && WorkerMove(s, t, w, a).Some?
    ensures WorkerMove(s, t, w, a).value.Move? ==> Departing(WorkerMove(s, t, w, a).value.w.pc)
  {
  }

  lemma {:induction false} RunDeparted(s: State, acts: seq<Action>, t: nat)
    requires Departed(s, t) && Run(s, acts).Some?
    ensures Departed(Run(s, acts).value, t)
    decreases |acts|
  {
    if acts != [] {
      var a := acts[0];
      if t in s.workers && !ByAcceptorThread(a) && a.t == t { DepartureStays(s.sh, t, s.workers[t], a); }
      RunDeparted(Do(s, a).value, acts[1..], t);
    }
  }

  // In every run, a worker whose connection has ended handles no further request: afterwards it is on its way out, or
  // gone for good.
  lemma LeavesForGood(past: seq<Action>, acts: seq<Action>, t: nat)
    requires Run(INIT, past).Some? && t in Run(INIT, past).value.workers && Run(INIT, past).value.workers[t].pc.Idle?
    ensures Do(Run(INIT, past).value, WRequest(t, RLeave)).Some?
    ensures var left := Do(Run(INIT, past).value, WRequest(t, RLeave)).value;
            Run(left, acts).Some? && t in Run(left, acts).value.workers ==> Departing(Run(left, acts).value.workers[t].pc)
  {
    RunNumbered(INIT, past);
    var left := Do(Run(INIT, past).value, WRequest(t, RLeave)).value;
    if Run(left, acts).Some? { RunDeparted(left, acts, t); }
  }

  // ----- whose captures a cancel request can stop -----

  // The number a cancel request must name after these starts; None leaves the previous one published.
  function PublishedBy(starts: seq<Start>): nat {
    if starts == [] then 0
    else
      var last := starts[|starts| - 1];
      if last.published.Some? then last.published.value else PublishedBy(starts[..|starts| - 1])
  }

  // A start under which nobody can name another generation: neither by the number still published when it begins,
  // nor by its own.
  predicate HarmlessStart(before: nat, x: Start) {
    (before == 0 || before == x.gen) && (x.published.None? || x.published.value == 0 || x.published.value == x.gen)
  }

  predicate Harmless(starts: seq<Start>) {
    starts != [] ==>
      && Harmless(starts[..|starts| - 1])
      && HarmlessStart(PublishedBy(starts[..|starts| - 1]), starts[|starts| - 1])
  }

  predicate NonZero(starts: seq<Start>) { forall i :: 0 <= i < |starts| ==> starts[i].gen != 0 }

  lemma Snoc(starts: seq<Start>, x: Start)
    ensures PublishedBy(starts + [x]) == (if x.published.Some? then x.published.value else PublishedBy(starts))
    ensures Harmless(starts + [x]) <==> Harmless(starts) && HarmlessStart(PublishedBy(starts), x)
    ensures NonZero(starts + [x]) <==> NonZero(starts) && x.gen != 0
  {
    var all := starts + [x];
    assert all[..|all| - 1] == starts && all[|all| - 1] == x;
    if NonZero(all) {
      forall i | 0 <= i < |starts| ensures starts[i].gen != 0 { assert all[i].gen != 0; }
    }
  }

  // A harmless list leaves its last generation or nothing published.
  lemma HarmlessPublishes(starts: seq<Start>)
    requires Harmless(starts) && starts != []
    ensures PublishedBy(starts) == 0 || PublishedBy(starts) == starts[|starts| - 1].gen
    ensures var before := PublishedBy(starts[..|starts| - 1]); before == 0 || before == starts[|starts| - 1].gen
  {
  }

  // A cancel request past its generation test still sees the generation it asked for.
  predicate Aimed(acceptor: AcceptorPc, activeGen: nat) {
    match acceptor
    case WantCancel(g) => g != 0
    case CancelCheck(g) => g != 0
    case WantFlag(g) => g != 0 && activeGen == g
    case SetFlag(g) => g != 0 && activeGen == g
    case TestBuffer(g) => g != 0 && activeGen == g
    case CancelBuffer(g) => g != 0 && activeGen == g
    case _ => true
  }

  predicate Plain(pc: WorkerPc) { !Opening(pc) && !pc.WantExit? && !pc.Exiting? }

  // What is published, by where the worker is.
  predicate Tracked(activeGen: nat, pc: WorkerPc, started: seq<Start>) {
    match pc
    case Snapshotting(gen, _) => gen != 0 && activeGen == PublishedBy(started)
    case WantBegin(gen, _) => gen != 0 && activeGen == PublishedBy(started)
    case Beginning(gen, _) => gen != 0 && activeGen == PublishedBy(started)
    case WantPublish(published) => Unpublished(activeGen, started, published)
    case Publishing(published) => Unpublished(activeGen, started, published)
    case WantExit => activeGen == 0
    case Exiting => activeGen == 0
    case _ => activeGen == PublishedBy(started)
  }

  predicate Unpublished(activeGen: nat, started: seq<Start>, published: Option<nat>) {
    started != [] && published == started[|started| - 1].published && activeGen == PublishedBy(started[..|started| - 1])
  }

  // Under harmless starts whatever is published or flagged is of the worker's own generation.
  predicate Own(activeGen: nat, cancelRequested: bool, flaggedBy: nat, gen: nat, started: seq<Start>) {
    && (started != [] ==> gen == started[|started| - 1].gen)
    && (started != [] && Harmless(started) ==>
          (activeGen == 0 || activeGen == gen) && (cancelRequested ==> flaggedBy == gen))
  }

  // And so is a cancel of its buffer.
  predicate OwnBuffer(buffer: Option<nat>, cancelledBy: map<nat, nat>, gen: nat, started: seq<Start>) {
    buffer.Some? && buffer.value in cancelledBy && Harmless(started) ==> cancelledBy[buffer.value] == gen
  }

  predicate OwnGeneration(s: Shared, w: Worker) {
    && NonZero(w.started) && Tracked(s.activeGen, w.pc, w.started) && (w.started == [] ==> !w.active)
    && Own(s.activeGen, s.cancelRequested, s.flaggedBy, w.gen, w.started)
    && OwnBuffer(s.buffer, s.cancelledBy, w.gen, w.started)
  }

  ghost predicate GenInv(s: State) {
    Aimed(s.sh.acceptor, s.sh.activeGen) && forall t :: t in s.workers ==> OwnGeneration(s.sh, s.workers[t])
  }

  lemma AcceptorAims(s: Shared, a: Action)
    requires Common(s) && Aimed(s.acceptor, s.activeGen) && AcceptorMove(s, a).Some?
    ensures var after := AcceptorMove(s, a).value.0; Aimed(after.acceptor, after.activeGen) && after.activeGen == s.activeGen
  {
  }

  lemma AcceptorKeepsGeneration(s: Shared, t: nat, w: Worker, a: Action)
    requires Common(s) && Working(s, t, w) && Aimed(s.acceptor, s.activeGen) && OwnGeneration(s, w) && AcceptorMove(s, a).Some?
    ensures OwnGeneration(AcceptorMove(s, a).value.0, w)
  {
  }

  ghost predicate GenerationKept(m: Move) { Aimed(m.sh.acceptor, m.sh.activeGen) && (m.Move? ==> OwnGeneration(m.sh, m.w)) }

  lemma BeginningKeepsGeneration(s: Shared, t: nat, w: Worker, ok: bool)
    requires Common(s) && Working(s, t, w) && Aimed(s.acceptor, s.activeGen) && OwnGeneration(s, w) && w.pc.Beginning?
    ensures GenerationKept(OpeningStep(s, t, w, ok).value)
  {
    var x := Start(w.pc.gen, w.pc.published);
    Snoc(w.started, x);
    if Harmless(w.started + [x]) { HarmlessPublishes(w.started + [x]); }
  }

  lemma PublishingKeepsGeneration(s: Shared, t: nat, w: Worker, ok: bool)
    requires Common(s) && Working(s, t, w) && Aimed(s.acceptor, s.activeGen) && OwnGeneration(s, w) && w.pc.Publishing?
    ensures GenerationKept(OpeningStep(s, t, w, ok).value)
  {
    if Harmless(w.started) { HarmlessPublishes(w.started); }
  }

  // A step that touches neither the published number nor the flag; a new buffer was never cancelled.
  ghost predicate Untouched(s: Shared, w: Worker, m: Move) {
    && m.Move? && m.sh.acceptor == s.acceptor && m.sh.activeGen == s.activeGen
    && m.sh.cancelRequested == s.cancelRequested && m.sh.flaggedBy == s.flaggedBy && m.sh.cancelledBy == s.cancelledBy
    && (m.sh.buffer == s.buffer || m.sh.buffer.None? || m.sh.buffer == Some(s.nextBuffer))
    && m.w.gen == w.gen && m.w.started == w.started && (m.w.active ==> w.active)
  }

  lemma UntouchedKeepsGeneration(s: Shared, w: Worker, m: Move)
    requires Aimed(s.acceptor, s.activeGen) && OwnGeneration(s, w) && Untouched(s, w, m) && s.nextBuffer !in s.cancelledBy
    requires Tracked(s.activeGen, m.w.pc, w.started)
    ensures GenerationKept(m)
  {
  }

  lemma OpeningUntouched(s: Shared, t: nat, w: Worker, ok: bool)
    requires OpeningStep(s, t, w, ok).Some? && !w.pc.Beginning? && !w.pc.Publishing?
    ensures Untouched(s, w, OpeningStep(s, t, w, ok).value)
  {
  }

  lemma OpeningTracks(s: Shared, t: nat, w: Worker, ok: bool)
    requires OpeningStep(s, t, w, ok).Some? && !w.pc.Beginning? && !w.pc.Publishing? && Tracked(s.activeGen, w.pc, w.started)
    ensures var m := OpeningStep(s, t, w, ok).value; m.Move? && Tracked(s.activeGen, m.w.pc, w.started)
  {
  }

  // Captures, retunes and closes begin and end where the published number is that of the starts.
  lemma PlainIsTracked(activeGen: nat, pc: WorkerPc, pc': WorkerPc, started: seq<Start>)
    requires Plain(pc) && Plain(pc') && Tracked(activeGen, pc, started)
    ensures Tracked(activeGen, pc', started)
  {
  }

  lemma CreatingUntouched(s: Shared, t: nat, w: Worker, ok: bool)
    requires w.pc.Creating? && GateStep(s, t, w, ok).Some?
    ensures Untouched(s, w, GateStep(s, t, w, ok).value) && Plain(w.pc) && Plain(GateStep(s, t, w, ok).value.w.pc)
  {
  }

  lemma GateUntouched(s: Shared, t: nat, w: Worker, ok: bool)
    requires !w.pc.Creating? && GateStep(s, t, w, ok).Some?
    ensures Untouched(s, w, GateStep(s, t, w, ok).value) && Plain(w.pc) && Plain(GateStep(s, t, w, ok).value.w.pc)
  {
  }

  lemma FinishUntouched(s: Shared, t: nat, w: Worker, ok: bool)
    requires FinishStep(s, t, w, ok).Some?
    ensures Untouched(s, w, FinishStep(s, t, w, ok).value) && Plain(w.pc) && Plain(FinishStep(s, t, w, ok).value.w.pc)
  {
  }

  lemma RetuneUntouched(s: Shared, w: Worker, ok: bool)
    requires RetuneStep(s, w, ok).Some?
    ensures Untouched(s, w, RetuneStep(s, w, ok).value) && Plain(w.pc) && Plain(RetuneStep(s, w, ok).value.w.pc)
  {
  }

  lemma ClosingUntouched(s: Shared, w: Worker, ok: bool)
    requires ClosingStep(s, w, ok).Some?
    ensures Untouched(s, w, ClosingStep(s, w, ok).value) && Plain(w.pc) && Plain(ClosingStep(s, w, ok).value.w.pc)
  {
  }

  lemma LeavingKeepsGeneration(s: Shared, t: nat, w: Worker)
    requires Common(s) && Working(s, t, w) && Aimed(s.acceptor, s.activeGen) && OwnGeneration(s, w)
    requires LeavingStep(s, t, w).Some?
    ensures GenerationKept(LeavingStep(s, t, w).value)
  {
  }

  lemma RequestKeepsGeneration(s: Shared, t: nat, w: Worker, a: Action)
    requires Aimed(s.acceptor, s.activeGen) && OwnGeneration(s, w) && !a.WGo? && WorkerMove(s, t, w, a).Some?
    ensures GenerationKept(WorkerMove(s, t, w, a).value)
  {
  }

  lemma WorkerKeepsGeneration(s: Shared, t: nat, w: Worker, a: Action)
    requires Common(s) && Working(s, t, w) && Buffers(s) && Aimed(s.acceptor, s.activeGen) && OwnGeneration(s, w)
    requires WorkerMove(s, t, w, a).Some?
    ensures GenerationKept(WorkerMove(s, t, w, a).value)
  {
    if !a.WGo? { RequestKeepsGeneration(s, t, w, a); }
    else if w.pc.Beginning? { BeginningKeepsGeneration(s, t, w, a.ok); }
    else if w.pc.Publishing? { PublishingKeepsGeneration(s, t, w, a.ok); }
    else if Opening(w.pc) {
      OpeningUntouched(s, t, w, a.ok);
      OpeningTracks(s, t, w, a.ok);
      UntouchedKeepsGeneration(s, w, OpeningStep(s, t, w, a.ok).value);
    }
    else if Leaving(w.pc) { LeavingKeepsGeneration(s, t, w); }
    else {
      if w.pc.Creating? { CreatingUntouched(s, t, w, a.ok); }
      else if Gating(w.pc) { GateUntouched(s, t, w, a.ok); }
      else if Ceasing(w.pc) { FinishUntouched(s, t, w, a.ok); }
      else if Retuning(w.pc) { RetuneUntouched(s, w, a.ok); }
      else { ClosingUntouched(s, w, a.ok); }
      var m := WorkerMove(s, t, w, a).value;
      PlainIsTracked(s.activeGen, w.pc, m.w.pc, w.started);
      UntouchedKeepsGeneration(s, w, m);
    }
  }

  lemma StepKeepsGeneration(s: State, a: Action)
    requires Inv(s) && GenInv(s) && Do(s, a).Some?
    ensures GenInv(Do(s, a).value)
  {
    var after := Do(s, a).value;
    if ByAcceptorThread(a) {
      AcceptorAims(s.sh, a);
      if s.workers == map[] {
        AcceptorMoveKeeps(s.sh, a, s.nextTid, NEWBORN);
        assert Resting(s.sh);
        assert forall t :: t in after.workers ==> after.workers[t] == NEWBORN;
      } else {
        var t :| t in s.workers;
        assert Working(s.sh, t, s.workers[t]);
        AcceptorMoveKeeps(s.sh, a, t, s.workers[t]);
        AcceptorKeepsGeneration(s.sh, t, s.workers[t], a);
        assert after.workers == s.workers;
      }
    } else {
      WorkerKeepsGeneration(s.sh, a.t, s.workers[a.t], a);
      assert forall u :: u in after.workers ==> u == a.t;
    }
  }

  lemma {:induction false} RunKeepsGeneration(s: State, acts: seq<Action>)
    requires Inv(s) && GenInv(s) && Run(s, acts).Some?
    ensures Inv(Run(s, acts).value) && GenInv(Run(s, acts).value)
    decreases |acts|
  {
    if acts != [] {
      StepKeeps(s, acts[0]);
      StepKeepsGeneration(s, acts[0]);
      RunKeepsGeneration(Do(s, acts[0]).value, acts[1..]);
    }
  }

  // The two ways a cancel request makes a capture fail: at the gate, or by cancelling its buffer in the loop.
  predicate StoppedBy(s: State, t: nat, g: nat)
    requires t in s.workers
  {
    || (s.workers[t].pc.Gate? && s.sh.cancelRequested && s.sh.flaggedBy == g)
    || (s.workers[t].pc.Refilling? && s.sh.buffer.Some? && s.sh.buffer.value in s.sh.cancelledBy
        && s.sh.cancelledBy[s.sh.buffer.value] == g)
  }

  // In every run: while the sessions its connection has begun are harmless, a capture is stopped only by a cancel
  // accepted for its own generation.
  lemma CancelStopsItsOwnGeneration(acts: seq<Action>, t: nat, g: nat)
    requires Run(INIT, acts).Some? && t in Run(INIT, acts).value.workers
    requires Harmless(Run(INIT, acts).value.workers[t].started) && StoppedBy(Run(INIT, acts).value, t, g)
    ensures Run(INIT, acts).value.workers[t].gen == g
  {
    RunKeepsGeneration(INIT, acts);
    var s := Run(INIT, acts).value;
    assert Working(s.sh, t, s.workers[t]) && OwnGeneration(s.sh, s.workers[t]);
  }

  lemma {:induction false} RunAppend(s: State, xs: seq<Action>, ys: seq<Action>)
    requires Run(s, xs).Some?
    ensures Run(s, xs + ys) == Run(Run(s, xs).value, ys)
    decreases |xs|
  {
    if xs == [] {
      assert xs + ys == ys;
    } else {
      assert (xs + ys)[0] == xs[0] && (xs + ys)[1..] == xs[1..] + ys;
      RunAppend(Do(s, xs[0]).value, xs[1..], ys);
    }
  }

  // ----- every other list of sessions goes wrong in some run -----

  function Gos(a: Action, n: nat): seq<Action> { if n == 0 then [] else [a] + Gos(a, n - 1) }

  lemma First(s: State, a: Action, rest: seq<Action>)
    requires Do(s, a).Some?
    ensures Run(s, [a] + rest) == Run(Do(s, a).value, rest)
  {
  }

  lemma {:induction false} GosRun(s: State, a: Action, n: nat)
    requires n > 0 && Do(s, a).Some?
    ensures Run(s, Gos(a, n)) == Run(Do(s, a).value, Gos(a, n - 1))
  {
  }

  // Worker 0 alone, with nobody inside a critical section and no buffer.
  predicate Calm(s: State) {
    s.sh.acceptor.Accepting? && s.sh.runtimeMutex.Free? && s.sh.cancelMutex.Free? && s.sh.buffer.None? && !s.sh.captureActive
    && 0 in s.workers
  }

  function Put(s: State, sh: Shared, w: Worker): State { s.(sh := sh, workers := s.workers[0 := w]) }

  // One action of worker 0, and two in a row.
  lemma Goes(s: State, sh: Shared, w: Worker, n: nat)
    requires 0 in s.workers && WorkerStep(s.sh, 0, s.workers[0], true) == Some(Move(sh, w))
    ensures Run(s, Gos(WGo(0, true), n + 1)) == Run(Put(s, sh, w), Gos(WGo(0, true), n))
  {
    GosRun(s, WGo(0, true), n + 1);
  }

  lemma PutTwice(s: State, sh: Shared, w: Worker, sh': Shared, w': Worker)
    ensures Put(Put(s, sh, w), sh', w') == Put(s, sh', w')
  {
    assert s.workers[0 := w][0 := w'] == s.workers[0 := w'];
  }

  lemma GoesTwice(s: State, sh: Shared, w: Worker, sh': Shared, w': Worker)
    requires 0 in s.workers && WorkerStep(s.sh, 0, s.workers[0], true) == Some(Move(sh, w))
    requires WorkerStep(sh, 0, w, true) == Some(Move(sh', w'))
    ensures Run(s, Gos(WGo(0, true), 2)) == Some(Put(s, sh', w'))
  {
    Goes(s, sh, w, 1);
    Goes(Put(s, sh, w), sh', w', 0);
    PutTwice(s, sh, w, sh', w');
  }

  predicate CanStart(s: State) {
    Calm(s) && var w := s.workers[0]; w.pc.Idle? && !w.faulted && !w.active
  }

  function StartActs(x: Start): seq<Action> { [WRequest(0, RStart(x.gen, x.published))] + Gos(WGo(0, true), 3) }

  // START_SESSION up to the point where its generation is not published yet.
  lemma Starting(s: State, x: Start)
    requires CanStart(s) && x.gen != 0
    ensures Run(s, StartActs(x)) == Some(Put(
              s, s.sh.(cancelRequested := false),
              Worker(if x.published.Some? then WantPublish(x.published) else Idle, x.gen, true, false, true, false,
                     s.workers[0].started + [x])))
  {
    var go := WGo(0, true);
    First(s, WRequest(0, RStart(x.gen, x.published)), Gos(go, 3));
    var s1 := Do(s, WRequest(0, RStart(x.gen, x.published))).value;
    GosRun(s1, go, 3);
    var s2 := Do(s1, go).value;
    GosRun(s2, go, 2);
    var s3 := Do(s2, go).value;
    GosRun(s3, go, 1);
    var s4 := Do(s3, go).value;
    assert s4.workers == s.workers[0 := s4.workers[0]];
  }

  function PublishActs(x: Start): seq<Action> { if x.published.Some? then Gos(WGo(0, true), 2) else [] }

  lemma PublishedNow(s: State, x: Start)
    requires Calm(s) && x.published.Some? && s.workers[0].pc == WantPublish(x.published)
    ensures Run(s, PublishActs(x)) == Some(Put(s, s.sh.(activeGen := x.published.value), s.workers[0].(pc := Idle)))
  {
    var sh, w := s.sh.(runtimeMutex := ByWorker(0)), s.workers[0].(pc := Publishing(x.published));
    GoesTwice(s, sh, w, s.sh.(activeGen := x.published.value), w.(pc := Idle));
  }

  lemma Published(s: State, x: Start)
    requires Calm(s) && s.workers[0].pc == if x.published.Some? then WantPublish(x.published) else Idle
    ensures Run(s, PublishActs(x)) == Some(Put(
              s, s.sh.(activeGen := if x.published.Some? then x.published.value else s.sh.activeGen), s.workers[0].(pc := Idle)))
  {
    if x.published.Some? { PublishedNow(s, x); }
    else { assert s.workers == s.workers[0 := s.workers[0].(pc := Idle)]; }
  }

  const CLOSE: seq<Action> := [WRequest(0, RClose)] + Gos(WGo(0, true), 2)

  lemma Closed(s: State)
    requires Calm(s)
    requires var w := s.workers[0]; w.pc.Idle? && w.active && !w.faulted
    ensures Run(s, CLOSE) == Some(Put(s, s.sh, s.workers[0].(active := false, profileApplied := false, owed := false)))
  {
    var go := WGo(0, true);
    First(s, WRequest(0, RClose), Gos(go, 2));
    var s1 := Do(s, WRequest(0, RClose)).value;
    GosRun(s1, go, 2);
    var s2 := Do(s1, go).value;
    GosRun(s2, go, 1);
    var s3 := Do(s2, go).value;
    assert s3.workers == s.workers[0 := s3.workers[0]];
  }

  function CancelActs(g: nat): seq<Action> { [ACancel(g)] + Gos(AGo(true), 6) }

  // The part of a cancel request inside cancel_mutex.
  lemma Flagged(s: State, g: nat)
    requires s.sh.acceptor == WantFlag(g) && s.sh.cancelMutex.Free? && !s.sh.captureActive
    ensures Run(s, Gos(AGo(true), 4)) == Some(s.(sh := s.sh.(
              runtimeMutex := Free, acceptor := Accepting, cancelRequested := true, flaggedBy := g)))
  {
    var go := AGo(true);
    GosRun(s, go, 4);
    var s1 := Do(s, go).value;
    GosRun(s1, go, 3);
    var s2 := Do(s1, go).value;
    FlagLeft(s2, g);
  }

  lemma FlagLeft(s: State, g: nat)
    requires s.sh.acceptor == TestBuffer(g) && !s.sh.captureActive
    ensures Run(s, Gos(AGo(true), 2)) == Some(s.(sh := s.sh.(runtimeMutex := Free, cancelMutex := Free, acceptor := Accepting)))
  {
    var go := AGo(true);
    GosRun(s, go, 2);
    var s1 := Do(s, go).value;
    GosRun(s1, go, 1);
  }

  lemma Cancelled(s: State, g: nat)
    requires Calm(s) && g != 0 && s.sh.activeGen == g
    ensures Run(s, CancelActs(g)) == Some(s.(sh := s.sh.(cancelRequested := true, flaggedBy := g)))
  {
    var go := AGo(true);
    First(s, ACancel(g), Gos(go, 6));
    var s1 := Do(s, ACancel(g)).value;
    GosRun(s1, go, 6);
    var s2 := Do(s1, go).value;
    GosRun(s2, go, 5);
    Flagged(Do(s2, go).value, g);
  }

  const APPLY: seq<Action> := [WRequest(0, RApply)] + Gos(WGo(0, true), 2)

  lemma Applied(s: State)
    requires Calm(s) && s.workers[0].pc.Idle? && s.workers[0].active
    ensures Run(s, APPLY) == Some(Put(s, s.sh, s.workers[0].(profileApplied := true)))
  {
    var go := WGo(0, true);
    First(s, WRequest(0, RApply), Gos(go, 2));
    var s1 := Do(s, WRequest(0, RApply)).value;
    GosRun(s1, go, 2);
    var s2 := Do(s1, go).value;
    GosRun(s2, go, 1);
    var s3 := Do(s2, go).value;
    assert s3.workers == s.workers[0 := s3.workers[0]];
  }

  function CaptureActs(power: bool): seq<Action> { [WRequest(0, RCapture(power))] + Gos(WGo(0, true), 2) }

  lemma Created(s: State, power: bool)
    requires 0 in s.workers && s.workers[0].pc == Creating(power) && s.sh.buffer.None? && s.sh.cancelMutex.Free?
    ensures Run(s, Gos(WGo(0, true), 2)) == Some(Put(
              s, s.sh.(buffer := Some(s.sh.nextBuffer), nextBuffer := s.sh.nextBuffer + 1, cancelMutex := ByWorker(0)),
              s.workers[0].(pc := Gate(power))))
  {
    var sh := s.sh.(buffer := Some(s.sh.nextBuffer), nextBuffer := s.sh.nextBuffer + 1);
    var w := s.workers[0].(pc := WantGate(power));
    GoesTwice(s, sh, w, sh.(cancelMutex := ByWorker(0)), w.(pc := Gate(power)));
  }

  // A capture, up to the test of cancel_requested.
  lemma AtTheGate(s: State, power: bool)
    requires Calm(s) && s.workers[0].pc.Idle? && s.workers[0].active && s.workers[0].profileApplied
    ensures Run(s, CaptureActs(power)) == Some(Put(
              s, s.sh.(buffer := Some(s.sh.nextBuffer), nextBuffer := s.sh.nextBuffer + 1, cancelMutex := ByWorker(0)),
              s.workers[0].(pc := Gate(power))))
  {
    First(s, WRequest(0, RCapture(power)), Gos(WGo(0, true), 2));
    var s1 := Do(s, WRequest(0, RCapture(power))).value;
    assert s1 == Put(s, s.sh, s.workers[0].(pc := Creating(power)));
    Created(s1, power);
    assert s1.workers[0 := s1.workers[0].(pc := Gate(power))] == s.workers[0 := s.workers[0].(pc := Gate(power))];
  }

  // ----- captures nobody cancels -----

  // No cancel request was ever made.
  predicate Uncancelled(s: Shared) { !s.cancelRequested && !Cancelling(s.acceptor) && s.cancelledBy == map[] }

  predicate NoCancel(acts: seq<Action>) { forall i :: 0 <= i < |acts| ==> !acts[i].ACancel? }

  lemma OpeningUncancelled(s: Shared, t: nat, w: Worker, ok: bool)
    requires Uncancelled(s) && OpeningStep(s, t, w, ok).Some?
    ensures Uncancelled(OpeningStep(s, t, w, ok).value.sh)
  {
  }

  lemma MoveUncancelled(s: Shared, t: nat, w: Worker, a: Action)
    requires Uncancelled(s) && WorkerMove(s, t, w, a).Some?
    ensures Uncancelled(WorkerMove(s, t, w, a).value.sh)
  {
    if a.WGo? && Opening(w.pc) { OpeningUncancelled(s, t, w, a.ok); }
  }

  lemma {:induction false} RunUncancelled(s: State, acts: seq<Action>)
    requires Uncancelled(s.sh) && NoCancel(acts) && Run(s, acts).Some?
    ensures Uncancelled(Run(s, acts).value.sh)
    decreases |acts|
  {
    if acts != [] {
      var a := acts[0];
      if !ByAcceptorThread(a) { MoveUncancelled(s.sh, a.t, s.workers[a.t], a); }
      RunUncancelled(Do(s, a).value, acts[1..]);
    }
  }

  // In every run without a cancel request: a capture that reaches the gate enters its refill loop, and the buffer it
  // refills is not cancelled there.
  lemma NobodyIsStopped(acts: seq<Action>, t: nat, ok: bool)
    requires Run(INIT, acts).Some? && NoCancel(acts) && t in Run(INIT, acts).value.workers
    ensures var s := Run(INIT, acts).value;
            && (forall g :: !StoppedBy(s, t, g))
            && (s.workers[t].pc.Gate? ==>
                 && Do(s, WGo(t, ok)).Some? && Do(s, WGo(t, ok)).value.sh.captureActive
                 && Do(s, WGo(t, ok)).value.workers[t] == s.workers[t].(pc := Refilling))
  {
    RunUncancelled(INIT, acts);
  }

  const LOOP: seq<Action> := [WGo(0, true), WRefill(0, Enough)] + Gos(WGo(0, true), 2)

  lemma Entered(s: State)
    requires 0 in s.workers && s.workers[0].pc.Gate? && !s.sh.cancelRequested
    ensures Run(s, LOOP) == Run(Put(s, s.sh.(cancelMutex := Free, captureActive := true), s.workers[0].(pc := WantFinish(true))),
                                Gos(WGo(0, true), 2))
  {
    var go := WGo(0, true);
    var s1 := Do(s, go).value;
    assert LOOP == [go] + ([WRefill(0, Enough)] + Gos(go, 2));
    First(s, go, [WRefill(0, Enough)] + Gos(go, 2));
    First(s1, WRefill(0, Enough), Gos(go, 2));
    var s2 := Do(s1, WRefill(0, Enough)).value;
    assert s2.workers == s.workers[0 := s2.workers[0]];
  }

  lemma Finished(s: State)
    requires 0 in s.workers && s.workers[0].pc == WantFinish(true) && s.sh.cancelMutex.Free?
    ensures Run(s, Gos(WGo(0, true), 2)) == Some(Put(s, s.sh.(captureActive := false), s.workers[0].(pc := Idle)))
  {
    var sh, w := s.sh.(cancelMutex := ByWorker(0)), s.workers[0].(pc := Finishing(true));
    GoesTwice(s, sh, w, s.sh.(captureActive := false), w.(pc := Idle));
  }

  lemma LoopDone(s: State)
    requires 0 in s.workers && s.workers[0].pc.Gate? && !s.sh.cancelRequested
    ensures Run(s, LOOP) == Some(Put(s, s.sh.(cancelMutex := Free, captureActive := false), s.workers[0].(pc := Idle)))
  {
    Entered(s);
    var s1 := Put(s, s.sh.(cancelMutex := Free, captureActive := true), s.workers[0].(pc := WantFinish(true)));
    Finished(s1);
    assert s1.workers[0 := s1.workers[0].(pc := Idle)] == s.workers[0 := s.workers[0].(pc := Idle)];
  }

  const CONNECT: seq<Action> := [AConnect] + Gos(AGo(true), 3)
  const CONNECTED := State(REST.(workerActive := true), map[0 := NEWBORN], 1)

  lemma Connected()
    ensures Run(INIT, CONNECT) == Some(CONNECTED)
  {
    var go := AGo(true);
    First(INIT, AConnect, Gos(go, 3));
    var s1 := Do(INIT, AConnect).value;
    GosRun(s1, go, 3);
    var s2 := Do(s1, go).value;
    GosRun(s2, go, 2);
    var s3 := Do(s2, go).value;
    GosRun(s3, go, 1);
  }

  // Worker 0 has begun and closed these sessions, and their numbers are published.
  ghost predicate Past(s: State, starts: seq<Start>) {
    CanStart(s) && s.workers[0].started == starts && s.sh.activeGen == PublishedBy(starts)
  }

  lemma SessionDone(s: State, starts: seq<Start>, x: Start)
    requires Past(s, starts) && x.gen != 0
    ensures var run := Run(s, StartActs(x) + PublishActs(x) + CLOSE); run.Some? && Past(run.value, starts + [x])
  {
    Starting(s, x);
    var s1 := Run(s, StartActs(x)).value;
    RunAppend(s, StartActs(x), PublishActs(x));
    Published(s1, x);
    var s2 := Run(s1, PublishActs(x)).value;
    RunAppend(s, StartActs(x) + PublishActs(x), CLOSE);
    Closed(s2);
    Snoc(starts, x);
  }

  lemma {:induction false} SessionsDone(starts: seq<Start>) returns (acts: seq<Action>)
    requires NonZero(starts)
    ensures Run(INIT, acts).Some? && Past(Run(INIT, acts).value, starts)
  {
    if starts == [] {
      Connected();
      acts := CONNECT;
    } else {
      var init, x := starts[..|starts| - 1], starts[|starts| - 1];
      assert starts == init + [x];
      var before := SessionsDone(init);
      SessionDone(Run(INIT, before).value, init, x);
      RunAppend(INIT, before, StartActs(x) + PublishActs(x) + CLOSE);
      acts := before + (StartActs(x) + PublishActs(x) + CLOSE);
    }
  }

  // After any sessions, one more in which a capture goes through: its session is idle again, as it was before.
  lemma CaptureCompletes(starts: seq<Start>, x: Start, power: bool) returns (acts: seq<Action>)
    requires NonZero(starts) && x.gen != 0
    ensures Run(INIT, acts).Some? && 0 in Run(INIT, acts).value.workers
    ensures Run(INIT, acts).value.workers[0] == Worker(Idle, x.gen, true, true, true, false, starts + [x])
    ensures Run(INIT, acts).value.sh.buffer.Some? && !Run(INIT, acts).value.sh.captureActive
  {
    var past := SessionsDone(starts);
    var s := Run(INIT, past).value;
    Starting(s, x);
    var s1 := Run(s, StartActs(x)).value;
    RunAppend(INIT, past, StartActs(x));
    Published(s1, x);
    var s2 := Run(s1, PublishActs(x)).value;
    RunAppend(INIT, past + StartActs(x), PublishActs(x));
    Applied(s2);
    var s3 := Run(s2, APPLY).value;
    RunAppend(INIT, past + StartActs(x) + PublishActs(x), APPLY);
    AtTheGate(s3, power);
    var s4 := Run(s3, CaptureActs(power)).value;
    RunAppend(INIT, past + StartActs(x) + PublishActs(x) + APPLY, CaptureActs(power));
    LoopDone(s4);
    RunAppend(INIT, past + StartActs(x) + PublishActs(x) + APPLY + CaptureActs(power), LOOP);
    acts := past + StartActs(x) + PublishActs(x) + APPLY + CaptureActs(power) + LOOP;
  }

  // A capture of a session that begins while another number is still published: a cancel for that number is accepted
  // before the new one is published.
  lemma StoppedByFormer(s: State, starts: seq<Start>, x: Start)
    requires Past(s, starts) && x.gen != 0 && PublishedBy(starts) != 0
    ensures var run := Run(s, StartActs(x) + CancelActs(PublishedBy(starts)) + PublishActs(x) + APPLY + CaptureActs(true));
            && run.Some? && 0 in run.value.workers && StoppedBy(run.value, 0, PublishedBy(starts))
            && run.value.workers[0].gen == x.gen && run.value.workers[0].started == starts + [x]
  {
    var g := PublishedBy(starts);
    Starting(s, x);
    var s1 := Run(s, StartActs(x)).value;
    RunAppend(s, StartActs(x), CancelActs(g));
    Cancelled(s1, g);
    var s2 := Run(s1, CancelActs(g)).value;
    RunAppend(s, StartActs(x) + CancelActs(g), PublishActs(x));
    Published(s2, x);
    var s3 := Run(s2, PublishActs(x)).value;
    RunAppend(s, StartActs(x) + CancelActs(g) + PublishActs(x), APPLY);
    Applied(s3);
    var s4 := Run(s3, APPLY).value;
    RunAppend(s, StartActs(x) + CancelActs(g) + PublishActs(x) + APPLY, CaptureActs(true));
    AtTheGate(s4, true);
  }

  // A capture of a session published under another number: a cancel for that number.
  lemma StoppedByMisread(s: State, starts: seq<Start>, x: Start)
    requires Past(s, starts) && x.gen != 0 && x.published.Some? && x.published.value != 0
    ensures var run := Run(s, StartActs(x) + PublishActs(x) + CancelActs(x.published.value) + APPLY + CaptureActs(true));
            && run.Some? && 0 in run.value.workers && StoppedBy(run.value, 0, x.published.value)
            && run.value.workers[0].gen == x.gen && run.value.workers[0].started == starts + [x]
  {
    var g := x.published.value;
    Starting(s, x);
    var s1 := Run(s, StartActs(x)).value;
    RunAppend(s, StartActs(x), PublishActs(x));
    Published(s1, x);
    var s2 := Run(s1, PublishActs(x)).value;
    RunAppend(s, StartActs(x) + PublishActs(x), CancelActs(g));
    Cancelled(s2, g);
    var s3 := Run(s2, CancelActs(g)).value;
    RunAppend(s, StartActs(x) + PublishActs(x) + CancelActs(g), APPLY);
    Applied(s3);
    var s4 := Run(s3, APPLY).value;
    RunAppend(s, StartActs(x) + PublishActs(x) + CancelActs(g) + APPLY, CaptureActs(true));
    AtTheGate(s4, true);
  }

  // The run ends with a capture of worker t stopped by a cancel that was accepted for another generation.
  ghost predicate WrongStop(acts: seq<Action>, t: nat, g: nat) {
    Run(INIT, acts).Some? && t in Run(INIT, acts).value.workers && StoppedBy(Run(INIT, acts).value, t, g)
    && Run(INIT, acts).value.workers[t].gen != g
  }

  // Two sessions of one connection: a cancel for the first, closed one stops a capture of the second.
  lemma SecondSessionIsStopped(first: nat, second: nat) returns (acts: seq<Action>)
    requires first != 0 && second != 0 && first != second
    ensures WrongStop(acts, 0, first) && Run(INIT, acts).value.workers[0].gen == second
  {
    acts := Misdirect([Start(first, Some(first))], Start(second, Some(second)));
  }

  // One session whose generation the two readers disagree on: 010 is eight for the session and ten for serve_client.
  lemma MisreadGenerationIsStopped(g: nat, read: nat) returns (acts: seq<Action>)
    requires g != 0 && read != 0 && read != g
    ensures WrongStop(acts, 0, read) && Run(INIT, acts).value.workers[0].gen == g
  {
    acts := Misdirect([], Start(g, Some(read)));
  }

  // A start that is not harmless after what was published before it, in a run.
  lemma Misdirect(starts: seq<Start>, x: Start) returns (acts: seq<Action>)
    requires NonZero(starts) && x.gen != 0 && !HarmlessStart(PublishedBy(starts), x)
    ensures var before := PublishedBy(starts);
            && WrongStop(acts, 0, if before != 0 && before != x.gen then before else x.published.value)
            && Run(INIT, acts).value.workers[0].gen == x.gen && Run(INIT, acts).value.workers[0].started == starts + [x]
  {
    var past := SessionsDone(starts);
    var s, g := Run(INIT, past).value, PublishedBy(starts);
    if g != 0 && g != x.gen {
      var rest := StartActs(x) + CancelActs(g) + PublishActs(x) + APPLY + CaptureActs(true);
      StoppedByFormer(s, starts, x);
      RunAppend(INIT, past, rest);
      acts := past + rest;
    } else {
      var rest := StartActs(x) + PublishActs(x) + CancelActs(x.published.value) + APPLY + CaptureActs(true);
      StoppedByMisread(s, starts, x);
      RunAppend(INIT, past, rest);
      acts := past + rest;
    }
  }

  // The shortest part of a list that is not harmless ends with the start that spoils it.
  lemma {:induction false} Spoiler(starts: seq<Start>) returns (n: nat)
    requires !Harmless(starts)
    ensures n < |starts| && !HarmlessStart(PublishedBy(starts[..n]), starts[n])
  {
    var init := starts[..|starts| - 1];
    if Harmless(init) {
      n := |starts| - 1;
    } else {
      n := Spoiler(init);
      assert init[..n] == starts[..n];
    }
  }

  // What clients may do: the lists of sessions a connection may begin, of which any part may be all it begins.
  ghost predicate Discipline(allows: seq<Start> -> bool) {
    forall starts, n {:trigger allows(starts[..n])} :: 0 <= n <= |starts| && allows(starts) ==> allows(starts[..n])
  }

  // A discipline of the clients keeps every accepted cancel to its own generation if and only if it allows harmless
  // lists alone.
  lemma DisciplineIsExact(allows: seq<Start> -> bool)
    requires Discipline(allows)
    ensures (forall starts :: allows(starts) && NonZero(starts) ==> Harmless(starts))
       <==> (forall acts, t, g :: WrongStop(acts, t, g) ==> !allows(Run(INIT, acts).value.workers[t].started))
  {
    if forall starts :: allows(starts) && NonZero(starts) ==> Harmless(starts) {
      forall acts, t, g | WrongStop(acts, t, g) ensures !allows(Run(INIT, acts).value.workers[t].started) {
        RunKeepsGeneration(INIT, acts);
        var s := Run(INIT, acts).value;
        assert OwnGeneration(s.sh, s.workers[t]);
        if Harmless(s.workers[t].started) { CancelStopsItsOwnGeneration(acts, t, g); }
      }
    } else {
      var starts :| allows(starts) && NonZero(starts) && !Harmless(starts);
      var n := Spoiler(starts);
      assert starts[..n + 1] == starts[..n] + [starts[n]];
      var acts := Misdirect(starts[..n], starts[n]);
      assert allows(starts[..n + 1]);
    }
  }
}
