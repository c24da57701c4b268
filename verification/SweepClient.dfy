/**
 run_sdrd_points of sweep.rs against the daemon of SessionHost: the lines the client
 sends for a validated plan, the replies it checks, and the points it builds.  The
 daemon runs in controlled mode with its default limits.
 */
module SweepClient {
  import opened Outcome
  import opened Arithmetic
  import opened Radio
  import opened Session
  import opened SessionRuns
  import opened SessionHost
  import opened Base64
  import opened IqCapture
  import Plans = SweepPlan

  const CFG: Config := Defaults(true)

  // ----- the lines -----

  function ProfileLine(v: Plans.ValidatedPlan, i: nat): ProfileArgs
    requires i < |v.centersHz| && (v.plan.gainDb.Some? ==> v.plan.gainDb.value >= 0)
  {
    var p := v.plan;
    match p.gainDb
    case Some(gain) => ProfileArgs(p.generation, v.centersHz[i], p.sampleRateHz, p.rfBandwidthHz, Manual, gain, 1)
    case None => ProfileArgs(p.generation, v.centersHz[i], p.sampleRateHz, p.rfBandwidthHz, SlowAttack, 0, 1)
  }

  function FeatureId(generation: nat, i: nat): string {
    "agx-sweep-" + Plans.Decimal(generation) + "-" + Plans.Decimal(i)
  }

  function PointSamples(v: Plans.ValidatedPlan): nat { v.plan.frameSamples * v.plan.aggregateFrames }

  function CaptureLine(v: Plans.ValidatedPlan, i: nat): CaptureArgs {
    var p := v.plan;
    CaptureArgs(p.generation, PointSamples(v), PointSamples(v) * 4, FeatureId(p.generation, i), p.pointTimeoutMs)
  }

  predicate Valid(v: Plans.ValidatedPlan) { Plans.ValidatePlan(v.plan) == Ok(v) }

  lemma FeatureIdIsValid(generation: Plans.U64, i: nat)
    requires i <= 768
    ensures ValidFeatureId(FeatureId(generation, i))
  {
    Plans.DecimalOfU64(generation);
    Plans.DecimalOfU64(i);
    var f := FeatureId(generation, i);
    forall k | 0 <= k < |f| ensures FeatureChar(f[k]) {
      var head := "agx-sweep-" + Plans.Decimal(generation);
      if k < 10 {
        assert f[k] == "agx-sweep-"[k];
      } else if k < |head| {
        assert f[k] == Plans.Decimal(generation)[k - 10];
      } else if k == |head| {
        assert f[k] == '-';
      } else {
        assert f[k] == Plans.Decimal(i)[k - |head| - 1];
      }
    }
  }

  // The session belongs to this client, and its request ids are fresh.
  ghost predicate Owns(be: Backend, r0: Settings, d: Daemon, generation: nat, nextId: nat) {
    Inv(CFG, be, r0, d) && d.session.active && d.session.generation == generation && d.session.lastRequestId < nextId
  }

  predicate ProfileEchoes(v: Plans.ValidatedPlan, i: nat, generation: nat, p: Settings)
    requires i < |v.centersHz|
  {
    && generation == v.plan.generation
    && AbsDiff(p.centerHz, v.centersHz[i]) <= 2
    && p.rateHz == v.plan.sampleRateHz && p.bandwidthHz == v.plan.rfBandwidthHz
    && p.mode == (if v.plan.gainDb.Some? then Manual else SlowAttack)
    && (v.plan.gainDb.Some? ==> p.gainDb == v.plan.gainDb.value as real)
  }

  // Every APPLY_PROFILE line of a validated plan passes the daemon's checks: the radio is asked, and the
  // answer is an echo the client accepts or the report of a failed apply.
  lemma ProfileLineIsTaken(v: Plans.ValidatedPlan, i: nat, be: Backend, r0: Settings, d: Daemon, id: nat, o: Outcomes)
    requires Valid(v) && i < |v.centersHz|
    requires Owns(be, r0, d, v.plan.generation, id)
    ensures var st := Handle(CFG, be, d, Line(id, ApplyProfile(Some(ProfileLine(v, i)))), o);
            && !Rejected(st.reply) && |st.ops| > 0 && st.ops[0].OpApply?
            && (st.reply.ProfileReply? ==>
                  && ProfileEchoes(v, i, st.reply.generation, st.reply.profile)
                  && st.reply.profile.centerHz == v.centersHz[i]
                  && Owns(be, r0, st.after, v.plan.generation, id + 1) && st.after.session.profileApplied
                  && st.after.sequence == d.sequence)
            && (st.reply.ProfileReply? || st.reply.Error?)
            && (st.reply.ProfileReply? <==> Lands(ProfileOf(ProfileLine(v, i)), o.tune))
  {
    ApplySucceeds(d.radio, ProfileOf(ProfileLine(v, i)), o.tune);
  }

  // The radio lands `offset` away from the requested frequency, and otherwise as asked.
  function LandsAt(p: Settings, centerHz: nat): TuneOutcome {
    TuneOutcome(Landed(p.rateHz), Landed(p.bandwidthHz), Landed(p.mode), Landed(p.gainDb), Landed(centerHz), true, 3, true)
  }

  // The reply echoes the request, so the client's tolerance of 2 Hz says nothing about the radio: it accepts every
  // readback the daemon accepts, up to 10 Hz away on either side.
  lemma EchoHidesOffset(v: Plans.ValidatedPlan, i: nat, be: Backend, r0: Settings, d: Daemon, id: nat, o: Outcomes, landed: nat)
    requires Valid(v) && i < |v.centersHz| && Owns(be, r0, d, v.plan.generation, id)
    requires o.tune == LandsAt(ProfileOf(ProfileLine(v, i)), landed)
    ensures var st := Handle(CFG, be, d, Line(id, ApplyProfile(Some(ProfileLine(v, i)))), o);
            && (st.reply.ProfileReply? <==> AbsDiff(landed, v.centersHz[i]) <= 10)
            && (st.reply.ProfileReply? ==>
                  && st.after.radio.centerHz == landed
                  && ProfileEchoes(v, i, st.reply.generation, st.reply.profile))
  {
    ProfileLineIsTaken(v, i, be, r0, d, id, o);
    var args := ProfileLine(v, i);
    assert InBounds(CFG, ProfileOf(args)) && ValidProfileArgs(args);
    assert Handle(CFG, be, d, Line(id, ApplyProfile(Some(args))), o)
        == HandleApply(CFG, be, d.(session := d.session.(lastRequestId := id)), id, Some(args), o);
  }

  // The adapter brings the point's samples, no fewer and no more, without a fault, and the daemon can hand them over.
  predicate Delivered(v: Plans.ValidatedPlan, o: Outcomes) {
    && o.capture.CaptureDone? && o.pathsOk && o.transferOk
    && var c := o.capture.result;
       && c.samples == PointSamples(v) && c.bytes == 4 * PointSamples(v) && |c.iq| == 4 * PointSamples(v)
       && c.dropped == 0 && !c.overflow && c.timeoutMs > 0 && !c.timedOut && c.flags == 0 && c.pathOk
  }

  // Every CAPTURE_IQ_INLINE line that fits the transport frame passes them too, and a reply carries exactly
  // the bytes asked for, with the next sequence number.
  lemma CaptureLineIsTaken(v: Plans.ValidatedPlan, i: nat, be: Backend, r0: Settings, d: Daemon, id: nat, o: Outcomes)
    requires Valid(v) && i < |v.centersHz| && PointSamples(v) * 4 <= MAX_INLINE_CAPTURE_BYTES
    requires Owns(be, r0, d, v.plan.generation, id) && d.session.profileApplied
    ensures var st := Handle(CFG, be, d, Line(id, CaptureIqInline(Some(CaptureLine(v, i)))), o);
            && !Rejected(st.reply) && |st.ops| > 0 && st.ops[0] == OpCaptureIq(v.plan.generation)
            && (st.reply.InlineReply? ==>
                  && st.reply.id == id && st.reply.generation == v.plan.generation
                  && st.reply.sequence == st.after.sequence == d.sequence + 1 && o.capture == CaptureDone(st.reply.result)
                  && InlineContract(CaptureLine(v, i), st.reply.result)
                  && |st.reply.result.iq| == PointSamples(v) * 4 && st.reply.iqBase64 == Encode(st.reply.result.iq)
                  && Owns(be, r0, st.after, v.plan.generation, id + 1))
            && (st.reply.InlineReply? || st.reply.Error?)
            && (st.reply.InlineReply? <==> Delivered(v, o))
  {
    var line := Line(id, CaptureIqInline(Some(CaptureLine(v, i))));
    var d1 := d.(session := d.session.(lastRequestId := id));
    var args := CaptureLine(v, i);
    FeatureIdIsValid(v.plan.generation, i);
    SamplesPositive(v);
    StepKeeps(CFG, be, r0, d, line, o);
    assert CaptureRefusal(CFG, d1, Some(args)).None?;
    assert Handle(CFG, be, d, line, o) == HandleInline(CFG, be, d1, id, Some(args), o);
  }

  lemma SamplesPositive(v: Plans.ValidatedPlan)
    requires Valid(v)
    ensures 64 <= PointSamples(v)
  {
    MulLe(1, v.plan.aggregateFrames, v.plan.frameSamples);
  }

  // ----- the wire -----

  datatype ClientError =
    | ReplyLost | DaemonError(code: ErrorCode) | ReplyShape
    | ControlledModeUnavailable | RadioCapability | SessionStart
    | ProfileResponse | CaptureSize | CaptureShape | IqBase64 | IqSum | SummaryClipped
    | RestoreResponse | QuitRejected

  // The errors left to a client of this daemon: a lost reply, a failed radio operation, a radio the probe does not see
  // (`visible` says what CAPABILITIES reports), a point too large for the transport frame, an adapter that reports
  // another timeout, and clipping.  Not a refusal by one of the daemon's checks, and no inconsistent reply.
  predicate Possible(e: ClientError, visible: bool) {
    e.ReplyLost? || e.CaptureSize? || e.CaptureShape? || e.SummaryClipped? || (e.RadioCapability? && !visible)
    || (e.DaemonError? && !Rejected(Error(0, e.code)))
  }

  lemma CloseKeepsId(be: Backend, d: Daemon, o: Outcomes)
    ensures Close(be, d, o).0.session.lastRequestId == d.session.lastRequestId
  {
  }

  lemma ControlKeepsId(be: Backend, d: Daemon, id: nat, c: Command, o: Outcomes)
    requires Mutating(c)
    ensures HandleControl(CFG, be, d, id, c, o).after.session.lastRequestId == d.session.lastRequestId
  {
  }

  lemma IdAdvances(be: Backend, d: Daemon, id: nat, c: Command, o: Outcomes)
    requires d.session.lastRequestId < id
    ensures Handle(CFG, be, d, Line(id, c), o).after.session.lastRequestId == id
  {
    var d1 := d.(session := d.session.(lastRequestId := id));
    if Mutating(c) { ControlKeepsId(be, d1, id, c, o); } else { CloseKeepsId(be, d1, o); }
  }

  // SdrdWire over a connection to the daemon: it numbers its requests and hands back only replies with status ok.
  class Link {
    const host: Host
    const be: Backend
    var nextId: nat

    ghost predicate Ready()
      reads this, host
    {
      host.lastRequestId < nextId
    }

    constructor (host: Host, be: Backend)
      requires host.lastRequestId == 0
      ensures this.host == host && this.be == be && nextId == 1
    {
      this.host, this.be, this.nextId := host, be, 1;
    }

    method Request(c: Command, o: Outcomes, lost: bool) returns (r: Result<Reply, ClientError>, ghost st: Step)
      requires Ready()
      modifies this, host, host.radio
      ensures nextId == old(nextId) + 1 && Ready()
      ensures st == Handle(CFG, be, old(host.View()), Line(old(nextId), c), o) && host.View() == st.after
      ensures r == if lost then Err(ReplyLost) else if st.reply.Error? then Err(DaemonError(st.reply.code)) else Ok(st.reply)
    {
      IdAdvances(be, host.View(), nextId, c, o);
      var reply, ops := host.HandleRequest(CFG, be, Line(nextId, c), o);
      nextId := nextId + 1;
      st := Step(host.View(), reply, ops);
      r := if lost then Err(ReplyLost) else if reply.Error? then Err(DaemonError(reply.code)) else Ok(reply);
    }
  }

  // ----- points -----

  datatype Point = Point(
    index: nat, requestId: nat, generation: nat, requestedHz: nat, actualHz: nat, rateHz: nat, bandwidthHz: nat,
    sequence: nat, dropped: nat, overflow: bool, samples: nat, power: nat, clips: nat, flags: nat, elapsedUs: nat,
    limitMs: nat, timedOut: bool)

  predicate PointOk(v: Plans.ValidatedPlan, i: nat, p: Point)
    requires i < |v.centersHz|
  {
    && p.index == i && p.requestId != 0 && p.generation == v.plan.generation
    && p.requestedHz == v.centersHz[i] && AbsDiff(p.actualHz, v.centersHz[i]) <= 2
    && p.rateHz == v.plan.sampleRateHz && p.bandwidthHz == v.plan.rfBandwidthHz
    && p.dropped == 0 && !p.overflow && p.flags == 0 && p.limitMs != 0 && !p.timedOut
  }

  // What validate_points promises its caller: one good point a center, in order, each captured after all before it.
  ghost predicate Faithful(v: Plans.ValidatedPlan, points: seq<Point>) {
    && |points| == |v.centersHz|
    && (forall i :: 0 <= i < |points| ==> PointOk(v, i, points[i]))
    && (forall i, j :: 0 <= i < j < |points| ==> points[i].sequence < points[j].sequence)
  }

  method ValidatePoints(v: Plans.ValidatedPlan, points: seq<Point>) returns (ok: bool)
    ensures ok <==> Faithful(v, points)
  {
    if |points| != |v.centersHz| { return false; }
    var previous: Option<nat>, index := None, 0;
    while index < |points|
      invariant 0 <= index <= |points|
      invariant previous == if index == 0 then None else Some(points[index - 1].sequence)
      invariant forall i :: 0 <= i < index ==> PointOk(v, i, points[i])
      invariant forall i, j :: 0 <= i < j < index ==> points[i].sequence < points[j].sequence
    {
      var point := points[index];
      if !PointOk(v, index, point) || (previous.Some? && point.sequence <= previous.value) { return false; }
      previous := Some(point.sequence);
      index := index + 1;
    }
    return true;
  }

  // The client's arithmetic on one inline reply: decode, sum, refuse clipping.
  method Summarize(v: Plans.ValidatedPlan, iqBase64: seq<byte>, ghost iq: seq<byte>) returns (r: Result<nat, ClientError>)
    requires Valid(v) && PointSamples(v) * 4 <= MAX_INLINE_CAPTURE_BYTES
    requires |iq| == PointSamples(v) * 4 && iqBase64 == Encode(iq)
    ensures r.Ok? ==> r.value == PowerSum(Chunk(iq)) && ClipCount(Chunk(iq)) == 0
    ensures r.Ok? <==> ClipCount(Chunk(iq)) == 0
    ensures r.Err? ==> r.error == SummaryClipped
  {
    SamplesPositive(v);
    RoundTrip(iq);
    var bytes := DecodeLoop(iqBase64);
    if bytes.None? { return Err(IqBase64); }
    var sum := AggregateCi16(bytes.value, PointSamples(v));
    assert sum != Err(ShapeError) && sum != Err(PowerOverflow);
    assert sum.Err? ==> sum.error == ShapeError || sum.error == PowerOverflow;
    if sum.Err? { return Err(IqSum); }
    if sum.value.1 != 0 { return Err(SummaryClipped); }
    r := Ok(sum.value.0);
  }

  predicate ShapeOk(v: Plans.ValidatedPlan, generation: nat, c: CaptureResult) {
    && generation == v.plan.generation && c.samples == PointSamples(v) && c.bytes == PointSamples(v) * 4
    && c.dropped == 0 && !c.overflow && c.timeoutMs == v.plan.pointTimeoutMs && !c.timedOut && c.flags == 0
  }

  // What the two requests of a point need: the replies arrive, the radio lands on the profile, and the capture is
  // delivered with the time limit asked for and no clipped sample.
  predicate TunedAt(v: Plans.ValidatedPlan, i: nat, o: Outcomes, lost: bool)
    requires Valid(v) && i < |v.centersHz|
  {
    !lost && Lands(ProfileOf(ProfileLine(v, i)), o.tune)
  }

  predicate LimitKept(v: Plans.ValidatedPlan, o: Outcomes) { o.capture.CaptureDone? && o.capture.result.timeoutMs == v.plan.pointTimeoutMs }

  predicate Unclipped(o: Outcomes) {
    o.capture.CaptureDone? && |o.capture.result.iq| % 4 == 0 && ClipCount(Chunk(o.capture.result.iq)) == 0
  }

  predicate Brought(v: Plans.ValidatedPlan, o: Outcomes, lost: bool) { !lost && Delivered(v, o) && LimitKept(v, o) && Unclipped(o) }

  predicate SoundPoint(v: Plans.ValidatedPlan, i: nat, foreign: nat -> Outcomes, lost: nat -> bool, id: nat)
    requires Valid(v) && i < |v.centersHz|
  {
    TunedAt(v, i, foreign(id), lost(id)) && Brought(v, foreign(id + 1), lost(id + 1))
  }

  // APPLY_PROFILE for one center; returns the frequency the daemon reported.
  method Tune(v: Plans.ValidatedPlan, i: nat, link: Link, o: Outcomes, lost: bool, ghost r0: Settings)
    returns (r: Result<nat, ClientError>, ghost reply: Reply)
    requires Valid(v) && i < |v.centersHz|
    requires Owns(link.be, r0, link.host.View(), v.plan.generation, link.nextId)
    modifies link, link.host, link.host.radio
    ensures link.Ready() && !Rejected(reply) && (r.Err? ==> Possible(r.error, true) && r.error != CaptureSize)
    ensures r.Ok? ==>
              && Owns(link.be, r0, link.host.View(), v.plan.generation, link.nextId) && link.host.profileApplied
              && r.value == v.centersHz[i] && link.host.radio.sequence == old(link.host.radio.sequence)
    ensures r.Ok? <==> TunedAt(v, i, o, lost)
    ensures r.Err? ==> r.error != CaptureShape && r.error != SummaryClipped
    ensures link.nextId == old(link.nextId) + 1
  {
    ProfileLineIsTaken(v, i, link.be, r0, link.host.View(), link.nextId, o);
    var answer;
    ghost var st;
    answer, st := link.Request(ApplyProfile(Some(ProfileLine(v, i))), o, lost);
    reply := st.reply;
    if answer.Err? { return Err(answer.error), reply; }
    var profile := answer.value;
    if !profile.ProfileReply? { return Err(ReplyShape), reply; }
    if !ProfileEchoes(v, i, profile.generation, profile.profile) { return Err(ProfileResponse), reply; }
    r := Ok(profile.profile.centerHz);
  }

  // The point holds the power of `iq`, the bytes a capture of the daemon brought for its line.
  ghost predicate Measured(v: Plans.ValidatedPlan, i: nat, p: Point, iq: seq<byte>, o: Outcomes) {
    && o.capture.CaptureDone? && InlineContract(CaptureLine(v, i), o.capture.result) && iq == o.capture.result.iq
    && |iq| == PointSamples(v) * 4 && p.power == PowerSum(Chunk(iq)) && ClipCount(Chunk(iq)) == 0
  }

  // CAPTURE_IQ_INLINE for one center, and the point it gives; `iq` is what the daemon captured.
  method CapturePoint(v: Plans.ValidatedPlan, i: nat, link: Link, actualHz: nat, o: Outcomes, lost: bool, ghost r0: Settings)
    returns (r: Result<Point, ClientError>, ghost reply: Reply, ghost iq: seq<byte>)
    requires Valid(v) && i < |v.centersHz| && PointSamples(v) * 4 <= MAX_INLINE_CAPTURE_BYTES
    requires Owns(link.be, r0, link.host.View(), v.plan.generation, link.nextId) && link.host.profileApplied
    requires AbsDiff(actualHz, v.centersHz[i]) <= 2
    modifies link, link.host, link.host.radio
    ensures link.Ready() && !Rejected(reply) && (r.Err? ==> Possible(r.error, true) && r.error != CaptureSize)
    ensures r.Ok? ==>
              && Owns(link.be, r0, link.host.View(), v.plan.generation, link.nextId)
              && PointOk(v, i, r.value) && r.value.sequence == link.host.radio.sequence > old(link.host.radio.sequence)
              && r.value.requestId == old(link.nextId) && Measured(v, i, r.value, iq, o)
    ensures r.Ok? <==> Brought(v, o, lost)
    ensures r == Err(CaptureShape) <==> !lost && Delivered(v, o) && !LimitKept(v, o)
    ensures r == Err(SummaryClipped) <==> !lost && Delivered(v, o) && LimitKept(v, o) && !Unclipped(o)
    ensures link.nextId == old(link.nextId) + 1
  {
    CaptureLineIsTaken(v, i, link.be, r0, link.host.View(), link.nextId, o);
    iq := [];
    var answer;
    ghost var st;
    answer, st := link.Request(CaptureIqInline(Some(CaptureLine(v, i))), o, lost);
    reply := st.reply;
    if answer.Err? { return Err(answer.error), reply, iq; }
    var capture := answer.value;
    if !capture.InlineReply? { return Err(ReplyShape), reply, iq; }
    if !ShapeOk(v, capture.generation, capture.result) { return Err(CaptureShape), reply, iq; }
    iq := capture.result.iq;
    var power := Summarize(v, capture.iqBase64, iq);
    if power.Err? { return Err(power.error), reply, iq; }
    var c := capture.result;
    r := Ok(Point(i, capture.id, capture.generation, v.centersHz[i], actualHz, v.plan.sampleRateHz,
                  v.plan.rfBandwidthHz, capture.sequence, c.dropped, c.overflow, PointSamples(v), power.value, 0,
                  c.flags, c.elapsedUs, c.timeoutMs, c.timedOut));
  }

  // What the loop over the centers has so far.
  ghost predicate Collected(v: Plans.ValidatedPlan, points: seq<Point>, iqs: seq<seq<byte>>, sequence: nat,
                            foreign: nat -> Outcomes) {
    && |points| == |iqs| <= |v.centersHz|
    && (forall i :: 0 <= i < |points| ==> PointOk(v, i, points[i]) && points[i].sequence <= sequence)
    && (forall i, j :: 0 <= i < j < |points| ==> points[i].sequence < points[j].sequence)
    && (forall i :: 0 <= i < |points| ==> Measured(v, i, points[i], iqs[i], foreign(points[i].requestId)))
  }

  lemma CollectOne(v: Plans.ValidatedPlan, points: seq<Point>, iqs: seq<seq<byte>>, sequence: nat,
                   foreign: nat -> Outcomes, p: Point, iq: seq<byte>)
    requires Collected(v, points, iqs, sequence, foreign) && |points| < |v.centersHz|
    requires PointOk(v, |points|, p) && sequence < p.sequence
    requires Measured(v, |points|, p, iq, foreign(p.requestId))
    ensures Collected(v, points + [p], iqs + [iq], p.sequence, foreign)
  {
  }

  // The first n points, whose requests are numbered from `base` on, are sound.
  ghost predicate SoundTo(v: Plans.ValidatedPlan, n: nat, foreign: nat -> Outcomes, lost: nat -> bool, base: nat)
    requires Valid(v) && n <= |v.centersHz|
  {
    forall i :: 0 <= i < n ==> SoundPoint(v, i, foreign, lost, base + 2 * i)
  }

  // A capture that is delivered under another time limit than the one asked for.
  predicate Misses(v: Plans.ValidatedPlan, i: nat, foreign: nat -> Outcomes, lost: nat -> bool, id: nat)
    requires Valid(v) && i < |v.centersHz|
  {
    TunedAt(v, i, foreign(id), lost(id)) && !lost(id + 1) && Delivered(v, foreign(id + 1)) && !LimitKept(v, foreign(id + 1))
  }

  ghost predicate Mislimited(v: Plans.ValidatedPlan, foreign: nat -> Outcomes, lost: nat -> bool, base: nat)
    requires Valid(v)
  {
    exists n: nat :: n < |v.centersHz| && SoundTo(v, n, foreign, lost, base) && Misses(v, n, foreign, lost, base + 2 * n)
  }

  predicate FitsFrame(v: Plans.ValidatedPlan) { PointSamples(v) * 4 <= 256 * 1024 }

  lemma MissIsUnsound(v: Plans.ValidatedPlan, i: nat, foreign: nat -> Outcomes, lost: nat -> bool, id: nat)
    requires Valid(v) && i < |v.centersHz| && Misses(v, i, foreign, lost, id)
    ensures !SoundPoint(v, i, foreign, lost, id)
  {
  }

  lemma UnsoundEnds(v: Plans.ValidatedPlan, m: nat, n: nat, foreign: nat -> Outcomes, lost: nat -> bool, base: nat)
    requires Valid(v) && m <= |v.centersHz| && n < |v.centersHz| && SoundTo(v, m, foreign, lost, base)
    requires !SoundPoint(v, n, foreign, lost, base + 2 * n)
    ensures m <= n
  {
  }

  // The first point that is not sound decides how a sweep ends.
  lemma EndsThere(v: Plans.ValidatedPlan, n: nat, foreign: nat -> Outcomes, lost: nat -> bool, base: nat, id: nat)
    requires Valid(v) && n < |v.centersHz| && SoundTo(v, n, foreign, lost, base) && id == base + 2 * n
    requires !(FitsFrame(v) && SoundPoint(v, n, foreign, lost, id))
    ensures !(FitsFrame(v) && SoundTo(v, |v.centersHz|, foreign, lost, base))
    ensures FitsFrame(v) ==> (Mislimited(v, foreign, lost, base) <==> Misses(v, n, foreign, lost, id))
  {
    if FitsFrame(v) && SoundTo(v, |v.centersHz|, foreign, lost, base) {
      UnsoundEnds(v, |v.centersHz|, n, foreign, lost, base);
    }
    if FitsFrame(v) && Mislimited(v, foreign, lost, base) {
      var m: nat :| m < |v.centersHz| && SoundTo(v, m, foreign, lost, base) && Misses(v, m, foreign, lost, base + 2 * m);
      MissIsUnsound(v, m, foreign, lost, base + 2 * m);
      UnsoundEnds(v, n, m, foreign, lost, base);
      UnsoundEnds(v, m, n, foreign, lost, base);
    }
  }

  lemma SoundOnes(v: Plans.ValidatedPlan, n: nat, foreign: nat -> Outcomes, lost: nat -> bool, base: nat, id: nat)
    requires Valid(v) && n < |v.centersHz| && SoundTo(v, n, foreign, lost, base) && id == base + 2 * n
    requires SoundPoint(v, n, foreign, lost, id)
    ensures SoundTo(v, n + 1, foreign, lost, base)
  {
  }

  lemma AllSound(v: Plans.ValidatedPlan, foreign: nat -> Outcomes, lost: nat -> bool, base: nat)
    requires Valid(v) && SoundTo(v, |v.centersHz|, foreign, lost, base)
    ensures !Mislimited(v, foreign, lost, base)
  {
  }

  // One turn of the loop over the centers.
  method OnePoint(v: Plans.ValidatedPlan, i: nat, link: Link, foreign: nat -> Outcomes, lost: nat -> bool, ghost r0: Settings)
    returns (r: Result<Point, ClientError>, ghost replies: seq<Reply>, ghost iq: seq<byte>)
    requires Valid(v) && i < |v.centersHz|
    requires Owns(link.be, r0, link.host.View(), v.plan.generation, link.nextId)
    modifies link, link.host, link.host.radio
    ensures link.Ready() && forall x :: x in replies ==> !Rejected(x)
    ensures r.Ok? ==>
              && Owns(link.be, r0, link.host.View(), v.plan.generation, link.nextId) && link.nextId == old(link.nextId) + 2
              && PointOk(v, i, r.value) && r.value.sequence == link.host.radio.sequence > old(link.host.radio.sequence)
              && Measured(v, i, r.value, iq, foreign(r.value.requestId))
    ensures r.Err? ==> Possible(r.error, true)
    ensures r == Err(CaptureSize) ==> !FitsFrame(v)
    ensures r.Ok? <==> FitsFrame(v) && SoundPoint(v, i, foreign, lost, old(link.nextId))
    ensures r == Err(CaptureShape) <==> FitsFrame(v) && Misses(v, i, foreign, lost, old(link.nextId))
  {
    iq := [];
    var tuned;
    ghost var reply;
    tuned, reply := Tune(v, i, link, foreign(link.nextId), lost(link.nextId), r0);
    replies := [reply];
    if tuned.Err? { return Err(tuned.error), replies, iq; }
    if PointSamples(v) * 4 > 256 * 1024 { return Err(CaptureSize), replies, iq; }
    r, reply, iq := CapturePoint(v, i, link, tuned.value, foreign(link.nextId), lost(link.nextId), r0);
    replies := replies + [reply];
  }

  // The loop over the centers, in an owned session.  `foreign` and `lost` say, request by request, what the radio does
  // and which replies never arrive.
  method Sweep(v: Plans.ValidatedPlan, link: Link, foreign: nat -> Outcomes, lost: nat -> bool, ghost r0: Settings)
    returns (r: Result<seq<Point>, ClientError>, ghost replies: seq<Reply>, ghost iqs: seq<seq<byte>>)
    requires Valid(v) && Owns(link.be, r0, link.host.View(), v.plan.generation, link.nextId)
    modifies link, link.host, link.host.radio
    ensures link.Ready() && forall x :: x in replies ==> !Rejected(x)
    ensures r.Ok? ==>
              && Owns(link.be, r0, link.host.View(), v.plan.generation, link.nextId)
              && Collected(v, r.value, iqs, link.host.radio.sequence, foreign) && |r.value| == |v.centersHz|
              && link.nextId == old(link.nextId) + 2 * |v.centersHz|
    ensures r.Err? ==> Possible(r.error, true)
    ensures r == Err(CaptureSize) ==> !FitsFrame(v)
    ensures r.Ok? <==> FitsFrame(v) && SoundTo(v, |v.centersHz|, foreign, lost, old(link.nextId))
    ensures r == Err(CaptureShape) <==> FitsFrame(v) && Mislimited(v, foreign, lost, old(link.nextId))
  {
    var points: seq<Point> := [];
    replies, iqs := [], [];
    ghost var base := link.nextId;
    HasCenters(v);
    while |points| < |v.centersHz|
      invariant Owns(link.be, r0, link.host.View(), v.plan.generation, link.nextId)
      invariant Collected(v, points, iqs, link.host.radio.sequence, foreign)
      invariant forall x :: x in replies ==> !Rejected(x)
      invariant |points| > 0 ==> FitsFrame(v)
      invariant link.nextId == base + 2 * |points| && SoundTo(v, |points|, foreign, lost, base)
      decreases |v.centersHz| - |points|
    {
      ghost var before := link.host.radio.sequence;
      ghost var id := link.nextId;
      ghost var more, iq;
      var point;
      point, more, iq := OnePoint(v, |points|, link, foreign, lost, r0);
      replies := replies + more;
      if point.Err? {
        EndsThere(v, |points|, foreign, lost, base, id);
        return Err(point.error), replies, iqs;
      }
      SoundOnes(v, |points|, foreign, lost, base, id);
      CollectOne(v, points, iqs, before, foreign, point.value, iq);
      points, iqs := points + [point.value], iqs + [iq];
    }
    AllSound(v, foreign, lost, base);
    r := Ok(points);
  }

  lemma HasCenters(v: Plans.ValidatedPlan)
    requires Valid(v)
    ensures v.centersHz != []
  {
  }

  // HELLO and CAPABILITIES.
  method Greet(link: Link, foreign: nat -> Outcomes, lost: nat -> bool)
    returns (r: Option<ClientError>, ghost replies: seq<Reply>)
    requires link.Ready() && link.be.available && !link.host.faulted
    modifies link, link.host, link.host.radio
    ensures link.Ready() && forall x :: x in replies ==> !Rejected(x)
    ensures link.host.View() == old(link.host.View()).(session := old(link.host.View()).session.(lastRequestId := link.host.lastRequestId))
    ensures r.Some? ==> Possible(r.value, foreign(old(link.nextId) + 1).iioVisible) && r.value != CaptureSize
    ensures var id := old(link.nextId);
            && link.nextId <= id + 2 && (r.None? ==> link.nextId == id + 2)
            && (r.None? <==> !lost(id) && !lost(id + 1) && foreign(id + 1).probeOk && foreign(id + 1).iioVisible)
            && (r == Some(RadioCapability) <==> !lost(id) && !lost(id + 1) && foreign(id + 1).probeOk && !foreign(id + 1).iioVisible)
    ensures r.Some? ==> r.value != CaptureShape
  {
    ghost var st;
    var answer;
    answer, st := link.Request(Hello(true), foreign(link.nextId), lost(link.nextId));
    replies := [st.reply];
    if answer.Err? { return Some(answer.error), replies; }
    if !answer.value.HelloReply? { return Some(ReplyShape), replies; }
    if !(answer.value.controlled && answer.value.mutating) { return Some(ControlledModeUnavailable), replies; }
    answer, st := link.Request(Capabilities(true), foreign(link.nextId), lost(link.nextId));
    replies := replies + [st.reply];
    if answer.Err? { return Some(answer.error), replies; }
    if !answer.value.CapabilitiesReply? { return Some(ReplyShape), replies; }
    if !answer.value.iioVisible || !answer.value.radioControl { return Some(RadioCapability), replies; }
    r := None;
  }

  // START_SESSION.
  method Begin(v: Plans.ValidatedPlan, link: Link, o: Outcomes, lost: bool, ghost r0: Settings)
    returns (r: Option<ClientError>, ghost reply: Reply)
    requires Valid(v) && link.Ready() && Inv(CFG, link.be, r0, link.host.View()) && link.be.available
    requires !link.host.active && !link.host.faulted
    modifies link, link.host, link.host.radio
    ensures link.Ready() && !Rejected(reply)
    ensures r.None? ==> Owns(link.be, r0, link.host.View(), v.plan.generation, link.nextId)
    ensures r.Some? ==> Possible(r.value, true) && r.value != CaptureSize && r.value != CaptureShape
    ensures r.None? <==> !lost && o.snapshotOk && o.beginOk
    ensures link.nextId == old(link.nextId) + 1
  {
    StepKeeps(CFG, link.be, r0, link.host.View(), Line(link.nextId, StartSession(Some(v.plan.generation))), o);
    var answer;
    ghost var st;
    answer, st := link.Request(StartSession(Some(v.plan.generation)), o, lost);
    reply := st.reply;
    if answer.Err? { return Some(answer.error), reply; }
    if !answer.value.Owned? { return Some(ReplyShape), reply; }
    if answer.value.generation != v.plan.generation { return Some(SessionStart), reply; }
    r := None;
  }

  // The session stops, the radio is written back, and both replies arrive.
  predicate Returned(r0: Settings, foreign: nat -> Outcomes, lost: nat -> bool, id: nat) {
    !lost(id) && !lost(id + 1) && foreign(id).stopOk && !RestoreLost(r0, foreign(id).restore)
  }

  // STOP_SESSION and QUIT after a complete loop; `stopped` says whether the first one succeeded.
  method Finish(v: Plans.ValidatedPlan, link: Link, foreign: nat -> Outcomes, lost: nat -> bool, ghost r0: Settings)
    returns (r: Option<ClientError>, stopped: bool)
    requires Owns(link.be, r0, link.host.View(), v.plan.generation, link.nextId)
    modifies link, link.host, link.host.radio
    ensures link.Ready()
    ensures r.None? ==> Home(r0, link.host.View())
    ensures r.Some? ==> Possible(r.value, true) && r.value != CaptureSize && r.value != CaptureShape
    ensures r.None? <==> Returned(r0, foreign, lost, old(link.nextId))
  {
    ghost var st;
    var answer;
    var o := foreign(link.nextId);
    RestoreSucceeds(link.host.radio.now, link.host.saved, o.restore);
    StepKeeps(CFG, link.be, r0, link.host.View(), Line(link.nextId, StopSession(Some(v.plan.generation))), o);
    answer, st := link.Request(StopSession(Some(v.plan.generation)), o, lost(link.nextId));
    if answer.Err? { return Some(answer.error), false; }
    if !answer.value.Restored? || answer.value.generation != v.plan.generation { return Some(RestoreResponse), false; }
    o := foreign(link.nextId);
    StepKeeps(CFG, link.be, r0, link.host.View(), Line(link.nextId, Quit(true)), o);
    answer, st := link.Request(Quit(true), o, lost(link.nextId));
    if answer.Err? { return Some(answer.error), true; }
    if !answer.value.Closing? { return Some(QuitRejected), true; }
    return None, true;
  }

  // The greeting and the start: requests 1 to 3.
  predicate Opened(foreign: nat -> Outcomes, lost: nat -> bool) {
    && !lost(1) && !lost(2) && !lost(3)
    && foreign(2).probeOk && foreign(2).iioVisible && foreign(3).snapshotOk && foreign(3).beginOk
  }

  // The whole exchange goes well: point i is requests 4 + 2i and 5 + 2i, and STOP and QUIT are the two after the last.
  ghost predicate Completes(v: Plans.ValidatedPlan, r0: Settings, foreign: nat -> Outcomes, lost: nat -> bool)
    requires Valid(v)
  {
    && Opened(foreign, lost) && FitsFrame(v) && SoundTo(v, |v.centersHz|, foreign, lost, 4)
    && Returned(r0, foreign, lost, 4 + 2 * |v.centersHz|)
  }

  // The session once it is owned; `started` says whether STOP_SESSION is still to be sent.
  method Work(v: Plans.ValidatedPlan, link: Link, foreign: nat -> Outcomes, lost: nat -> bool, ghost r0: Settings)
    returns (r: Result<seq<Point>, ClientError>, started: bool, ghost replies: seq<Reply>, ghost iqs: seq<seq<byte>>)
    requires Valid(v) && Owns(link.be, r0, link.host.View(), v.plan.generation, link.nextId)
    modifies link, link.host, link.host.radio
    ensures link.Ready() && forall x :: x in replies ==> !Rejected(x)
    ensures r.Ok? ==> Faithful(v, r.value) && Home(r0, link.host.View()) && MeasuredAll(v, r.value, iqs, foreign)
    ensures r.Err? ==> Possible(r.error, true)
    ensures r == Err(CaptureSize) ==> !FitsFrame(v)
    ensures var id := old(link.nextId);
            r.Ok? <==> FitsFrame(v) && SoundTo(v, |v.centersHz|, foreign, lost, id)
                       && Returned(r0, foreign, lost, id + 2 * |v.centersHz|)
    ensures r == Err(CaptureShape) <==> FitsFrame(v) && Mislimited(v, foreign, lost, old(link.nextId))
  {
    ghost var id := link.nextId;
    started := true;
    r, replies, iqs := Sweep(v, link, foreign, lost, r0);
    if r.Ok? {
      AllSound(v, foreign, lost, id);
      var failed, stopped := Finish(v, link, foreign, lost, r0);
      started := !stopped;
      if failed.Some? { r := Err(failed.value); }
    }
  }

  // Every point holds what its own capture brought.
  ghost predicate MeasuredAll(v: Plans.ValidatedPlan, points: seq<Point>, iqs: seq<seq<byte>>, foreign: nat -> Outcomes) {
    |iqs| == |points| <= |v.centersHz|
    && forall i :: 0 <= i < |iqs| ==> Measured(v, i, points[i], iqs[i], foreign(points[i].requestId))
  }

  // The session between the greeting and the clean-up.
  method Execute(v: Plans.ValidatedPlan, link: Link, foreign: nat -> Outcomes, lost: nat -> bool, ghost r0: Settings)
    returns (r: Result<seq<Point>, ClientError>, started: bool, ghost replies: seq<Reply>, ghost iqs: seq<seq<byte>>)
    requires Valid(v) && link.Ready() && Inv(CFG, link.be, r0, link.host.View()) && link.be.available
    requires !link.host.active && !link.host.faulted
    modifies link, link.host, link.host.radio
    ensures link.Ready() && forall x :: x in replies ==> !Rejected(x)
    ensures r.Ok? ==> Faithful(v, r.value) && Home(r0, link.host.View()) && MeasuredAll(v, r.value, iqs, foreign)
    ensures r.Err? ==> Possible(r.error, true)
    ensures r == Err(CaptureSize) ==> !FitsFrame(v)
    ensures var id := old(link.nextId); var last := id + 1 + 2 * |v.centersHz|;
            r.Ok? <==> !lost(id) && foreign(id).snapshotOk && foreign(id).beginOk && FitsFrame(v)
                       && SoundTo(v, |v.centersHz|, foreign, lost, id + 1) && Returned(r0, foreign, lost, last)
    ensures var id := old(link.nextId);
            r == Err(CaptureShape) <==> !lost(id) && foreign(id).snapshotOk && foreign(id).beginOk && FitsFrame(v)
                                        && Mislimited(v, foreign, lost, id + 1)
  {
    var failed;
    ghost var reply;
    failed, reply := Begin(v, link, foreign(link.nextId), lost(link.nextId), r0);
    if failed.Some? { return Err(failed.value), false, [reply], []; }
    ghost var more;
    r, started, more, iqs := Work(v, link, foreign, lost, r0);
    replies := [reply] + more;
  }

  // run_sdrd_points on a new connection.  No line it sends before its first error is refused by a check of the daemon;
  // the only errors are the Possible ones; and a returned point list passes validate_points, holds the power of the
  // very bytes the daemon captured, and leaves the radio as it was found.  It returns points exactly when everything
  // Completes, and CaptureShape exactly when the first point that is not sound is one with another time limit.
  method RunSdrdPoints(v: Plans.ValidatedPlan, be: Backend, radio: IioRadio, foreign: nat -> Outcomes, lost: nat -> bool)
    returns (r: Result<seq<Point>, ClientError>, ghost replies: seq<Reply>, ghost iqs: seq<seq<byte>>)
    requires Valid(v) && be.available
    modifies radio
    ensures forall x :: x in replies ==> !Rejected(x)
    ensures r.Ok? ==> Faithful(v, r.value) && Same(radio.now, old(radio.now))
    ensures r.Ok? ==> MeasuredAll(v, r.value, iqs, foreign)
    ensures r.Err? ==> Possible(r.error, foreign(2).iioVisible)
    ensures r == Err(RadioCapability) <==> !lost(1) && !lost(2) && foreign(2).probeOk && !foreign(2).iioVisible
    ensures r.Ok? <==> Completes(v, old(radio.now), foreign, lost)
    ensures r == Err(CaptureShape) <==> Opened(foreign, lost) && FitsFrame(v) && Mislimited(v, foreign, lost, 4)
    ensures r.Ok? ==> PointSamples(v) * 4 <= MAX_INLINE_CAPTURE_BYTES
    ensures r == Err(CaptureSize) ==> PointSamples(v) * 4 > MAX_INLINE_CAPTURE_BYTES
  {
    ghost var r0 := radio.now;
    iqs := [];
    var host := new Host(radio);
    var link := new Link(host, be);
    var failed;
    failed, replies := Greet(link, foreign, lost);
    if failed.Some? { return Err(failed.value), replies, iqs; }
    var started;
    ghost var more;
    r, started, more, iqs := Execute(v, link, foreign, lost, r0);
    replies := replies + more;
    if r.Err? {
      if started { var _, st' := link.Request(StopSession(Some(v.plan.generation)), foreign(link.nextId), lost(link.nextId)); }
      var _, st'' := link.Request(Quit(true), foreign(link.nextId), lost(link.nextId));
    }
  }
}
