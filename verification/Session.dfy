/**
 The SDRD/1 session machine of the daemon: sdrd_session_close, the handle_* functions
 and sdrd_handle_request, as functions of the session, the radio and what each radio
 operation does.  Requests are already split and parsed; replies are tagged values.
 SessionHost holds the same machine in the source's own imperative form.
 */
module Session {
  import opened Outcome
  import opened Arithmetic
  import opened Radio
  import opened Base64

  datatype Config = Config(
    controlled: bool, iioTimeoutMs: nat,
    minCenterHz: nat, maxCenterHz: nat, minRateHz: nat, maxRateHz: nat,
    minBandwidthHz: nat, maxBandwidthHz: nat, maxCaptureBytes: nat)

  // sdrd_config_defaults, in the given mode.
  function Defaults(controlled: bool): Config {
    Config(controlled, 2000, 70_000_000, 6_000_000_000, 2_083_333, 30_720_000, 200_000, 56_000_000, 64 * 1024 * 1024)
  }

  // The radio operations a connection was given; they do not change while it lasts.
  datatype Backend = Backend(available: bool, power: bool)

  datatype SessionState = SessionState(
    generation: nat, lastRequestId: nat, active: bool, profileApplied: bool,
    restoreRequired: bool, faulted: bool, saved: Settings, current: Settings)

  datatype Daemon = Daemon(session: SessionState, radio: Settings, sequence: nat)

  const BLANK := Settings(0, 0, 0, Unlisted(""), 0.0, 0)
  const FRESH := SessionState(0, 0, false, false, false, false, BLANK, BLANK)

  datatype ProfileArgs = ProfileArgs(
    generation: nat, centerHz: nat, rateHz: nat, bandwidthHz: nat, mode: GainMode, gainDb: nat, channels: nat)
  datatype CaptureArgs = CaptureArgs(generation: nat, samples: nat, maxBytes: nat, featureId: string, timeoutMs: nat)
  datatype PowerArgs = PowerArgs(generation: nat, frameSamples: nat, aggregateFrames: nat, timeoutMs: nat)

  // None stands for a wrong field count or a field that is no number.
  datatype Command =
    | Hello(fieldsOk: bool) | Capabilities(fieldsOk: bool) | Health(fieldsOk: bool) | Quit(fieldsOk: bool)
    | StartSession(start: Option<nat>)
    | ApplyProfile(profile: Option<ProfileArgs>)
    | CaptureIq(capture: Option<CaptureArgs>)
    | CaptureIqInline(capture: Option<CaptureArgs>)
    | CapturePower(power: Option<PowerArgs>)
    | ExecutionStatus(status: Option<nat>)
    | StopSession(stop: Option<nat>)
    | CaptureSummary | Retune | UnknownCommand

  datatype Line = Unparsable | Line(id: nat, command: Command)

  datatype CaptureResult = CaptureResult(
    samples: nat, bytes: nat, dropped: nat, overflow: bool, timeoutMs: nat, elapsedUs: nat,
    timedOut: bool, flags: nat, pathOk: bool, iq: seq<byte>)

  datatype CaptureOutcome = CaptureFailed(timedOut: bool, numbered: bool) | CaptureDone(result: CaptureResult)
  datatype PowerOutcome = PowerFailed(timedOut: bool) | PowerDone(samples: nat, power: nat, clips: nat, flags: nat)

  // What every foreign call made on behalf of one request does.
  datatype Outcomes = Outcomes(
    probeOk: bool, iioVisible: bool, snapshotOk: bool, snapshotJunk: Settings, beginOk: bool, tune: TuneOutcome,
    capture: CaptureOutcome, pathsOk: bool, transferOk: bool, power: PowerOutcome,
    stopOk: bool, restore: RestoreOutcome)

  datatype ErrorCode =
    | InvalidRequest | InvalidRequestId | StaleOrDuplicateRequest | InvalidArguments | ProbeFailed
    | RetiredCommand | NotAllowlisted | UnknownCommandName | ReadOnlyShadow | RadioBackendUnavailable
    | RestoreFault | SessionBusy | SnapshotFailed | SessionBeginFailed
    | StaleOrMissingSession | StaleSession | ProfileOutOfBounds
    | CaptureOutOfBounds | CaptureTimeoutOutOfBounds | InlineCaptureOutOfBounds
    | SummaryOutOfBounds | SoftwareSummaryUnavailable
    | ApplyFailedRestored | ApplyFailedRestoreFault
    | CaptureFailedRestored | CaptureFailedRestoreFault
    | AdapterContractViolation | InlinePathInvalid
    | InlineTransferFailedRestored | InlineTransferRestoreFault
    | PowerTimeoutRestored | PowerFailedRestored | PowerFailedRestoreFault
    | StopOrRestoreFailed

  datatype Reply =
    | Error(id: nat, code: ErrorCode)
    | HelloReply(id: nat, controlled: bool, mutating: bool)
    | CapabilitiesReply(id: nat, controlled: bool, iioVisible: bool, radioControl: bool, summary: bool, maxCaptureBytes: nat)
    | HealthReply(id: nat, faulted: bool)
    | Owned(id: nat, generation: nat)
    | ProfileReply(id: nat, generation: nat, profile: Settings)
    | CaptureReply(id: nat, generation: nat, sequence: nat, result: CaptureResult)
    | InlineReply(id: nat, generation: nat, sequence: nat, result: CaptureResult, iqBase64: seq<byte>)
    | PowerReply(id: nat, generation: nat, sequence: nat, samples: nat, power: nat, clips: nat, flags: nat)
    | StatusReply(id: nat, generation: nat, active: bool, profileApplied: bool, restoreArmed: bool, faulted: bool)
    | Restored(id: nat, generation: nat)
    | Closing(id: nat)

  // The radio operations a request caused, in order.
  datatype RadioOp =
    | OpSnapshot | OpBegin | OpApply(profile: Settings) | OpCaptureIq(generation: nat) | OpCapturePower(generation: nat)
    | OpStop | OpRestore(saved: Settings)

  datatype Step = Step(after: Daemon, reply: Reply, ops: seq<RadioOp>)

  // sdrd_session_close: the new state, whether it returned zero, and the operations it made.
  function Close(be: Backend, d: Daemon, o: Outcomes): (Daemon, bool, seq<RadioOp>) {
    var s := d.session;
    if !s.active && !s.restoreRequired then (d, true, [])
    else if !be.available then (d.(session := s.(faulted := true)), false, [])
    else
      var (radio, restored) := if s.restoreRequired then Restore(d.radio, s.saved, o.restore) else (d.radio, true);
      var ended := s.(active := false, profileApplied := false);
      var after := if restored then ended.(restoreRequired := false, current := BLANK) else ended.(faulted := true);
      (d.(session := after, radio := radio), restored && o.stopOk,
       [OpStop] + if s.restoreRequired then [OpRestore(s.saved)] else [])
  }

  function CloseThen(be: Backend, d: Daemon, o: Outcomes, before: seq<RadioOp>, whenOk: Reply, whenNot: Reply): Step {
    var (after, ok, ops) := Close(be, d, o);
    Step(after, if ok then whenOk else whenNot, before + ops)
  }

  function HandleStart(d: Daemon, id: nat, args: Option<nat>, o: Outcomes): Step {
    if args.None? || args.value == 0 then Step(d, Error(id, InvalidArguments), [])
    else if d.session.faulted then Step(d, Error(id, RestoreFault), [])
    else if d.session.active then Step(d, Error(id, SessionBusy), [])
    else if !o.snapshotOk then
      Step(d.(session := d.session.(saved := o.snapshotJunk)), Error(id, SnapshotFailed), [OpSnapshot])
    else if !o.beginOk then
      Step(d.(session := d.session.(saved := d.radio)), Error(id, SessionBeginFailed), [OpSnapshot, OpBegin])
    else
      var s := d.session.(saved := d.radio, generation := args.value, active := true, profileApplied := false,
                          restoreRequired := true);
      Step(d.(session := s), Owned(id, args.value), [OpSnapshot, OpBegin])
  }

  predicate ValidProfileArgs(a: ProfileArgs) { !a.mode.Unlisted? && (a.mode.Manual? ==> a.gainDb <= 60) }

  predicate InBounds(cfg: Config, p: Settings) {
    && cfg.minCenterHz <= p.centerHz <= cfg.maxCenterHz
    && cfg.minRateHz <= p.rateHz <= cfg.maxRateHz
    && cfg.minBandwidthHz <= p.bandwidthHz <= cfg.maxBandwidthHz
    && p.bandwidthHz <= p.rateHz
  }

  function ProfileOf(a: ProfileArgs): Settings {
    Settings(a.centerHz, a.rateHz, a.bandwidthHz, a.mode, if a.mode.Manual? then a.gainDb as real else 0.0, 0)
  }

  function HandleApply(cfg: Config, be: Backend, d: Daemon, id: nat, args: Option<ProfileArgs>, o: Outcomes): Step {
    if args.None? || !ValidProfileArgs(args.value) then Step(d, Error(id, InvalidArguments), [])
    else
      var profile := ProfileOf(args.value);
      if !d.session.active || args.value.generation != d.session.generation then
        Step(d, Error(id, StaleOrMissingSession), [])
      else if !InBounds(cfg, profile) || args.value.channels != 1 then Step(d, Error(id, ProfileOutOfBounds), [])
      else
        var (radio, ok) := Apply(d.radio, profile, o.tune);
        if !ok then
          CloseThen(be, d.(radio := radio), o, [OpApply(profile)],
                    Error(id, ApplyFailedRestored), Error(id, ApplyFailedRestoreFault))
        else
          Step(d.(radio := radio, session := d.session.(current := profile, profileApplied := true)),
               ProfileReply(id, args.value.generation, profile), [OpApply(profile)])
  }

  predicate FeatureChar(c: char) { 'a' <= c <= 'z' || 'A' <= c <= 'Z' || '0' <= c <= '9' || c == '-' || c == '_' }

  predicate ValidFeatureId(f: string) { 0 < |f| < 64 && forall i :: 0 <= i < |f| ==> FeatureChar(f[i]) }

  function EffectiveTimeout(cfg: Config, timeoutMs: nat): nat { if timeoutMs == 0 then cfg.iioTimeoutMs else timeoutMs }

  // The checks CAPTURE_IQ and CAPTURE_IQ_INLINE share, in the order of the source.
  function CaptureRefusal(cfg: Config, d: Daemon, args: Option<CaptureArgs>): Option<ErrorCode> {
    if args.None? || !ValidFeatureId(args.value.featureId) then Some(InvalidArguments)
    else if !d.session.active || !d.session.profileApplied || args.value.generation != d.session.generation then
      Some(StaleOrMissingSession)
    else if args.value.samples == 0 || args.value.samples > U64_MAX / 4 then Some(CaptureOutOfBounds)
    else if EffectiveTimeout(cfg, args.value.timeoutMs) > 5000 then Some(CaptureTimeoutOutOfBounds)
    else None
  }

  function Numbered(d: Daemon, c: CaptureOutcome): Daemon {
    if c.CaptureDone? || c.numbered then d.(sequence := d.sequence + 1) else d
  }

  function HandleCaptureIq(cfg: Config, be: Backend, d: Daemon, id: nat, args: Option<CaptureArgs>, o: Outcomes): Step {
    var refusal := CaptureRefusal(cfg, d, args);
    if refusal.Some? then Step(d, Error(id, refusal.value), [])
    else
      var a := args.value;
      if a.maxBytes == 0 || a.maxBytes > cfg.maxCaptureBytes || a.samples * 4 > a.maxBytes then
        Step(d, Error(id, CaptureOutOfBounds), [])
      else
        var d1, op := Numbered(d, o.capture), [OpCaptureIq(a.generation)];
        match o.capture
        case CaptureFailed(_, _) =>
          CloseThen(be, d1, o, op, Error(id, CaptureFailedRestored), Error(id, CaptureFailedRestoreFault))
        case CaptureDone(r) =>
          if r.samples > a.samples || r.bytes > a.maxBytes || r.timeoutMs == 0 || r.timedOut || !r.pathOk then
            CloseThen(be, d1, o, op, Error(id, AdapterContractViolation), Error(id, AdapterContractViolation))
          else Step(d1, CaptureReply(id, a.generation, d1.sequence, r), op)
  }

  predicate InlineContract(a: CaptureArgs, r: CaptureResult) {
    && r.samples == a.samples && r.bytes == a.samples * 4 && r.dropped == 0 && !r.overflow
    && r.timeoutMs != 0 && !r.timedOut && r.flags == 0 && r.pathOk
  }

  predicate InlineFits(cfg: Config, a: CaptureArgs) {
    a.maxBytes == a.samples * 4 && a.samples * 4 <= MAX_INLINE_CAPTURE_BYTES && a.samples * 4 <= cfg.maxCaptureBytes
  }

  // The first check after an inline capture that fails, as the codes for a close that succeeds and one that does not.
  function InlineFailure(a: CaptureArgs, o: Outcomes): Option<(ErrorCode, ErrorCode)> {
    match o.capture
    case CaptureFailed(_, _) => Some((CaptureFailedRestored, CaptureFailedRestoreFault))
    case CaptureDone(r) =>
      if !InlineContract(a, r) then Some((AdapterContractViolation, AdapterContractViolation))
      else if !o.pathsOk then Some((InlinePathInvalid, InlinePathInvalid))
      else if !o.transferOk || |r.iq| != r.bytes then Some((InlineTransferFailedRestored, InlineTransferRestoreFault))
      else None
  }

  function HandleInline(cfg: Config, be: Backend, d: Daemon, id: nat, args: Option<CaptureArgs>, o: Outcomes): Step {
    var refusal := CaptureRefusal(cfg, d, args);
    if refusal.Some? then Step(d, Error(id, refusal.value), [])
    else if !InlineFits(cfg, args.value) then Step(d, Error(id, InlineCaptureOutOfBounds), [])
    else
      var a := args.value;
      var d1, op := Numbered(d, o.capture), [OpCaptureIq(a.generation)];
      match InlineFailure(a, o)
      case Some((code, fault)) => CloseThen(be, d1, o, op, Error(id, code), Error(id, fault))
      case None =>
        var r := o.capture.result;
        Step(d1, InlineReply(id, a.generation, d1.sequence, r, Encode(r.iq)), op)
  }

  function HandlePower(be: Backend, d: Daemon, id: nat, args: Option<PowerArgs>, o: Outcomes): Step {
    if args.None? then Step(d, Error(id, InvalidArguments), [])
    else
      var a := args.value;
      if !d.session.active || !d.session.profileApplied || a.generation != d.session.generation then
        Step(d, Error(id, StaleOrMissingSession), [])
      else if a.frameSamples < 64 || a.frameSamples > 65535 || a.aggregateFrames == 0 || a.aggregateFrames > 65535
              || a.frameSamples * a.aggregateFrames > 1048576 || a.timeoutMs == 0 || a.timeoutMs > 5000 then
        Step(d, Error(id, SummaryOutOfBounds), [])
      else if !be.power then Step(d, Error(id, SoftwareSummaryUnavailable), [])
      else
        var d1, op := d.(sequence := d.sequence + 1), [OpCapturePower(a.generation)];
        match o.power
        case PowerFailed(timedOut) =>
          CloseThen(be, d1, o, op, Error(id, if timedOut then PowerTimeoutRestored else PowerFailedRestored),
                    Error(id, PowerFailedRestoreFault))
        case PowerDone(samples, power, clips, flags) =>
          Step(d1, PowerReply(id, a.generation, d1.sequence, samples, power, clips, flags), op)
  }

  function HandleStatus(d: Daemon, id: nat, args: Option<nat>): Step {
    if args.None? then Step(d, Error(id, InvalidArguments), [])
    else if d.session.active && args.value != d.session.generation then Step(d, Error(id, StaleSession), [])
    else
      var s := d.session;
      Step(d, StatusReply(id, s.generation, s.active, s.profileApplied, s.restoreRequired, s.faulted), [])
  }

  function HandleStop(be: Backend, d: Daemon, id: nat, args: Option<nat>, o: Outcomes): Step {
    if args.None? then Step(d, Error(id, InvalidArguments), [])
    else if !d.session.active || args.value != d.session.generation then Step(d, Error(id, StaleOrMissingSession), [])
    else CloseThen(be, d, o, [], Restored(id, args.value), Error(id, StopOrRestoreFailed))
  }

  predicate Mutating(c: Command) {
    c.StartSession? || c.ApplyProfile? || c.CaptureIq? || c.CaptureIqInline? || c.CapturePower?
    || c.ExecutionStatus? || c.StopSession?
  }

  // The commands that own the radio, once mode and backend allow them.
  function HandleControl(cfg: Config, be: Backend, d: Daemon, id: nat, c: Command, o: Outcomes): Step
    requires Mutating(c)
  {
    if !cfg.controlled then Step(d, Error(id, ReadOnlyShadow), [])
    else if !be.available then Step(d, Error(id, RadioBackendUnavailable), [])
    else match c
      case StartSession(args) => HandleStart(d, id, args, o)
      case ApplyProfile(args) => HandleApply(cfg, be, d, id, args, o)
      case CaptureIq(args) => HandleCaptureIq(cfg, be, d, id, args, o)
      case CaptureIqInline(args) => HandleInline(cfg, be, d, id, args, o)
      case CapturePower(args) => HandlePower(be, d, id, args, o)
      case ExecutionStatus(args) => HandleStatus(d, id, args)
      case StopSession(args) => HandleStop(be, d, id, args, o)
  }

  // The commands that only report, and QUIT.
  function HandlePlain(cfg: Config, be: Backend, d: Daemon, id: nat, c: Command, o: Outcomes): Step
    requires !Mutating(c)
  {
    match c
    case Hello(ok) =>
      if !ok then Step(d, Error(id, InvalidArguments), [])
      else Step(d, HelloReply(id, cfg.controlled, cfg.controlled && be.available), [])
    case Capabilities(ok) =>
      if !ok then Step(d, Error(id, InvalidArguments), [])
      else if !o.probeOk then Step(d, Error(id, ProbeFailed), [])
      else
        var control := cfg.controlled && be.available && !d.session.faulted;
        Step(d, CapabilitiesReply(id, cfg.controlled, o.iioVisible, control, control && be.power, cfg.maxCaptureBytes), [])
    case Health(ok) =>
      if !ok then Step(d, Error(id, InvalidArguments), [])
      else if !o.probeOk then Step(d, Error(id, ProbeFailed), [])
      else Step(d, HealthReply(id, d.session.faulted), [])
    case Quit(ok) =>
      if !ok then Step(d, Error(id, InvalidArguments), [])
      else CloseThen(be, d, o, [], Closing(id), Error(id, StopOrRestoreFailed))
    case CaptureSummary => Step(d, Error(id, RetiredCommand), [])
    case Retune => Step(d, Error(id, NotAllowlisted), [])
    case UnknownCommand => Step(d, Error(id, UnknownCommandName), [])
  }

  // sdrd_handle_request
  function Handle(cfg: Config, be: Backend, d: Daemon, line: Line, o: Outcomes): Step {
    if line.Unparsable? then Step(d, Error(0, InvalidRequest), [])
    else if line.id == 0 then Step(d, Error(0, InvalidRequestId), [])
    else if d.session.lastRequestId != 0 && line.id <= d.session.lastRequestId then
      Step(d, Error(line.id, StaleOrDuplicateRequest), [])
    else
      var d1 := d.(session := d.session.(lastRequestId := line.id));
      if Mutating(line.command) then HandleControl(cfg, be, d1, line.id, line.command, o)
      else HandlePlain(cfg, be, d1, line.id, line.command, o)
  }
}
