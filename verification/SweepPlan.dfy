/**
 From a planner's action to a validated sweep: the policy checks of policy.rs, the
 translation of run_once in runner.rs, and validate_plan and expand_centers of sweep.rs.
 */
module SweepPlan {
  import opened Outcome
  import opened Arithmetic

  type U64 = n: int | 0 <= n <= U64_MAX

  const MAX_POINTS: nat := 768
  const MAX_DURATION_MS: nat := 300_000
  const SURVEY_POINT_TIMEOUT_MS: nat := 250
  const SURVEY_FRAME_SAMPLES: nat := 4_096
  const SURVEY_FRAME_BYTES: nat := 4_096 * 4

  function Min(a: int, b: int): int { if a <= b then a else b }
  function Saturate(n: nat): U64 { Min(n, U64_MAX) }

  // ----- expand_centers -----

  datatype Frequencies = Range(startHz: U64, stopHz: U64, stepHz: U64) | Centers(centersHz: seq<U64>)

  // CeilDiv(span, step) steps cover a span, the last one perhaps shorter, and one fewer does not.
  lemma StepsBound(span: nat, step: nat)
    requires step > 0
    ensures var n := CeilDiv(span, step);
            && span <= n * step && (n > 0 ==> (n - 1) * step < span)
            && (n == 0 <==> span == 0)
  {
  }

  // The i-th center.
  function CenterAt(start: nat, stop: nat, step: nat, i: nat): nat { Min(start + i * step, stop) }

  function RangeCenters(start: nat, stop: nat, step: nat): seq<nat>
    requires start <= stop && step > 0
  {
    seq(CeilDiv(stop - start, step) + 1, i requires 0 <= i => CenterAt(start, stop, step, i))
  }

  // When the loop of expand_centers ends well: its length test comes after the push, so it lets 769 points through,
  // and checked_add sees one sum beyond the last center but one.
  predicate Expandable(start: nat, stop: nat, step: nat) {
    start <= stop && step > 0 && CeilDiv(stop - start, step) <= MAX_POINTS
    && start + CeilDiv(stop - start, step) * step <= U64_MAX
  }

  // Where a center lies, by its index.
  lemma CenterPlace(start: nat, stop: nat, step: nat, i: nat)
    requires start <= stop && step > 0
    ensures var n := CeilDiv(stop - start, step);
            && (i < n ==> CenterAt(start, stop, step, i) == start + i * step < stop)
            && (i >= n ==> CenterAt(start, stop, step, i) == stop)
  {
    var n := CeilDiv(stop - start, step);
    StepsBound(stop - start, step);
    if i < n { MulLe(i, n - 1, step); } else { MulLe(n, i, step); }
  }

  method ExpandRange(start: U64, stop: U64, step: U64) returns (r: Result<seq<nat>, PlanError>)
    ensures r.Ok? <==> Expandable(start, stop, step)
    ensures r.Ok? ==> r.value == RangeCenters(start, stop, step)
    ensures r.Err? ==> r.error == FrequencyRange
  {
    if start > stop || step == 0 {
      return Err(FrequencyRange);
    }
    ghost var n := CeilDiv(stop - start, step);
    var centers: seq<nat> := [];
    var center: int := start;
    while true
      invariant |centers| <= n && |centers| <= MAX_POINTS
      invariant center == CenterAt(start, stop, step, |centers|)
      invariant start + |centers| * step <= U64_MAX
      invariant forall i :: 0 <= i < |centers| ==> centers[i] == CenterAt(start, stop, step, i)
      decreases n - |centers|
    {
      CenterPlace(start, stop, step, |centers|);
      ghost var k := |centers|;
      centers := centers + [center];
      if center == stop {
        break;
      }
      assert (k + 1) * step == k * step + step;
      MulLe(k + 1, n, step);
      if center + step > U64_MAX {
        return Err(FrequencyRange);
      }
      center := Min(center + step, stop);
      if |centers| > MAX_POINTS {
        return Err(FrequencyRange);
      }
    }
    assert centers == RangeCenters(start, stop, step);
    return Ok(centers);
  }

  // The expanded range without naming the loop: it runs from start to stop, each step but the last is exactly
  // `step`, and the last is between one and `step`.
  lemma RangeIsAscending(start: nat, stop: nat, step: nat)
    requires start <= stop && step > 0
    ensures var c := RangeCenters(start, stop, step);
            && c[0] == start && c[|c| - 1] == stop
            && (forall i :: 0 <= i < |c| - 1 ==> c[i] < c[i + 1] <= c[i] + step)
            && (forall i :: 0 <= i < |c| - 2 ==> c[i + 1] == c[i] + step)
            && (forall i :: 0 <= i < |c| ==> start <= c[i] <= stop)
  {
    var c := RangeCenters(start, stop, step);
    CenterPlace(start, stop, step, 0);
    CenterPlace(start, stop, step, |c| - 1);
    forall i | 0 <= i < |c| - 1
      ensures c[i] < c[i + 1] <= c[i] + step && (i < |c| - 2 ==> c[i + 1] == c[i] + step)
    {
      CenterPlace(start, stop, step, i);
      CenterPlace(start, stop, step, i + 1);
      assert (i + 1) * step == i * step + step;
    }
    forall i | 0 <= i < |c| ensures start <= c[i] <= stop {
      assert i * step >= 0 by { MulLe(0, i, step); }
    }
  }

  function ExpandCenters(f: Frequencies): (r: Result<seq<nat>, PlanError>) {
    match f
    case Centers(centers) => Ok(centers)
    case Range(start, stop, step) =>
      if Expandable(start, stop, step) then Ok(RangeCenters(start, stop, step)) else Err(FrequencyRange)
  }

  // ----- validate_plan -----

  datatype PlanError =
    | BadSweepId | BadGeneration | FrequencyRange | PointCount | BadFrequencies
    | BadRadioProfile | BadGain | CoverageGap | SummaryProfile | DurationExceeded

  datatype Plan = Plan(
    sweepId: string, generation: U64, frequencies: Frequencies, sampleRateHz: U64, rfBandwidthHz: U64,
    settleMs: U64, frameSamples: nat, aggregateFrames: nat, pointTimeoutMs: nat, thresholdDb: real,
    gainDb: Option<int>)

  datatype ValidatedPlan = ValidatedPlan(plan: Plan, centersHz: seq<nat>, durationMs: nat)

  // What the captures of a sweep receive: four bytes a sample.
  function IqBytes(v: ValidatedPlan): nat { |v.centersHz| * (v.plan.frameSamples * v.plan.aggregateFrames * 4) }

  predicate SafeIdChar(c: char) {
    'a' <= c <= 'z' || 'A' <= c <= 'Z' || '0' <= c <= '9' || c == '-' || c == '_'
  }

  predicate SafeId(id: string) {
    0 < |id| < 64 && forall i :: 0 <= i < |id| ==> SafeIdChar(id[i])
  }

  predicate Ascending(c: seq<nat>) { forall i :: 0 <= i < |c| - 1 ==> c[i] < c[i + 1] }
  predicate InRadioRange(c: seq<nat>) { forall i :: 0 <= i < |c| ==> 70_000_000 <= c[i] <= 6_000_000_000 }
  predicate GapsWithin(c: seq<nat>, gap: nat) { forall i :: 0 <= i < |c| - 1 ==> c[i + 1] - c[i] <= gap }
  function CoverageStep(rfBandwidthHz: nat): nat { Saturate(rfBandwidthHz * 4) / 5 }

  predicate ProfileInLimits(p: Plan) {
    2_100_000 <= p.sampleRateHz <= 30_720_000 && 200_000 <= p.rfBandwidthHz <= 56_000_000
    && p.rfBandwidthHz <= p.sampleRateHz
  }

  predicate SummaryInLimits(p: Plan) {
    p.settleMs <= 1_000 && 64 <= p.frameSamples <= 65_535 && 0 < p.aggregateFrames <= 65_535
    && 1 <= p.pointTimeoutMs <= 5_000 && 1.0 <= p.thresholdDb <= 60.0
  }

  function ValidatePlan(p: Plan): (r: Result<ValidatedPlan, PlanError>) {
    if !SafeId(p.sweepId) then Err(BadSweepId)
    else if p.generation == 0 then Err(BadGeneration)
    else match ExpandCenters(p.frequencies)
      case Err(e) => Err(e)
      case Ok(centers) =>
        if centers == [] || |centers| > MAX_POINTS then Err(PointCount)
        else if !Ascending(centers) || !InRadioRange(centers) then Err(BadFrequencies)
        else if !ProfileInLimits(p) then Err(BadRadioProfile)
        else if p.gainDb.Some? && !(0 <= p.gainDb.value <= 60) then Err(BadGain)
        else if |centers| > 1 && !GapsWithin(centers, CoverageStep(p.rfBandwidthHz)) then Err(CoverageGap)
        else if !SummaryInLimits(p) then Err(SummaryProfile)
        else
          // settle_ms + point_timeout_ms and its product cannot pass 64 bits here
          var duration := (p.settleMs + p.pointTimeoutMs) * |centers|;
          if duration > MAX_DURATION_MS then Err(DurationExceeded) else Ok(ValidatedPlan(p, centers, duration))
  }

  // The centers a plan may name, told without the checks of the code.
  ghost predicate CentersAllowed(c: seq<nat>, rfBandwidthHz: nat) {
    && 1 <= |c| <= 768 && 70_000_000 <= c[0] && c[|c| - 1] <= 6_000_000_000
    && forall i, j :: 0 <= i < j < |c| ==> c[i] < c[j] && (j == i + 1 ==> 5 * (c[j] - c[i]) <= 4 * rfBandwidthHz)
  }

  predicate AsciiLetter(n: int) { 65 <= n <= 90 || 97 <= n <= 122 }
  // Digits, '-' and '_'.
  predicate AsciiOther(n: int) { 48 <= n <= 57 || n == 45 || n == 95 }

  ghost predicate PlanAllowed(p: Plan) {
    && 1 <= |p.sweepId| <= 63
    && (forall i :: 0 <= i < |p.sweepId| ==> AsciiLetter(p.sweepId[i] as int) || AsciiOther(p.sweepId[i] as int))
    && p.generation > 0 && ExpandCenters(p.frequencies).Ok?
    && CentersAllowed(ExpandCenters(p.frequencies).value, p.rfBandwidthHz)
    && 2_100_000 <= p.sampleRateHz <= 30_720_000 && 200_000 <= p.rfBandwidthHz <= Min(p.sampleRateHz, 56_000_000)
    && (p.gainDb.Some? ==> 0 <= p.gainDb.value <= 60)
    && p.settleMs <= 1_000 && 64 <= p.frameSamples <= 65_535 && 1 <= p.aggregateFrames <= 65_535
    && 1 <= p.pointTimeoutMs <= 5_000 && 1.0 <= p.thresholdDb <= 60.0
    && (p.settleMs + p.pointTimeoutMs) * |ExpandCenters(p.frequencies).value| <= 300_000
  }

  lemma {:induction false} AscendingPairs(c: seq<nat>, i: nat, j: nat)
    requires Ascending(c) && i < j < |c|
    ensures c[i] < c[j]
  {
    if i + 1 < j { AscendingPairs(c, i, j - 1); }
  }

  lemma CentersAllowedIff(c: seq<nat>, rfBandwidthHz: nat)
    requires rfBandwidthHz <= 56_000_000
    ensures CentersAllowed(c, rfBandwidthHz) <==>
              c != [] && |c| <= MAX_POINTS && Ascending(c) && InRadioRange(c)
              && (|c| > 1 ==> GapsWithin(c, CoverageStep(rfBandwidthHz)))
  {
    if CentersAllowed(c, rfBandwidthHz) {
      forall i | 0 <= i < |c| ensures 70_000_000 <= c[i] <= 6_000_000_000 {
        assert i > 0 ==> c[0] < c[i];
        assert i < |c| - 1 ==> c[i] < c[|c| - 1];
      }
    } else if c != [] && |c| <= MAX_POINTS && Ascending(c) && InRadioRange(c)
              && (|c| > 1 ==> GapsWithin(c, CoverageStep(rfBandwidthHz))) {
      forall i, j | 0 <= i < j < |c| ensures c[i] < c[j] && (j == i + 1 ==> 5 * (c[j] - c[i]) <= 4 * rfBandwidthHz) {
        AscendingPairs(c, i, j);
      }
    }
  }

  // validate_plan accepts exactly the plans that are allowed, and returns their centers.
  lemma PlanAcceptedIff(p: Plan)
    ensures ValidatePlan(p).Ok? <==> PlanAllowed(p)
    ensures ValidatePlan(p).Ok? ==> ValidatePlan(p).value.plan == p
                                    && Ok(ValidatePlan(p).value.centersHz) == ExpandCenters(p.frequencies)
  {
    if ExpandCenters(p.frequencies).Ok? && p.rfBandwidthHz <= 56_000_000 {
      CentersAllowedIff(ExpandCenters(p.frequencies).value, p.rfBandwidthHz);
    }
  }

  // ----- coverage -----

  lemma {:induction false} Bracket(c: seq<nat>, f: nat)
    returns (i: nat)
    requires |c| > 1 && c[0] <= f <= c[|c| - 1]
    ensures i < |c| - 1 && c[i] <= f <= c[i + 1]
    decreases |c|
  {
    if f <= c[1] { i := 0; }
    else {
      i := Bracket(c[1..], f);
      i := i + 1;
    }
  }

  // Every frequency between the first and the last center of a validated plan lies within two fifths of the RF
  // bandwidth of some center, so inside the band that center's capture sees.
  lemma PlanCovers(p: Plan, f: nat)
    requires ValidatePlan(p).Ok?
    requires var c := ValidatePlan(p).value.centersHz; c[0] <= f <= c[|c| - 1]
    ensures exists i :: 0 <= i < |ValidatePlan(p).value.centersHz|
              && 5 * AbsDiff(f, ValidatePlan(p).value.centersHz[i]) <= 2 * p.rfBandwidthHz
  {
    var c := ValidatePlan(p).value.centersHz;
    if |c| == 1 {
      assert 5 * AbsDiff(f, c[0]) <= 2 * p.rfBandwidthHz;
    } else {
      var i := Bracket(c, f);
      assert c[i + 1] - c[i] <= CoverageStep(p.rfBandwidthHz);
      assert 5 * AbsDiff(f, c[i]) <= 2 * p.rfBandwidthHz || 5 * AbsDiff(f, c[i + 1]) <= 2 * p.rfBandwidthHz;
    }
  }

  // ----- policy.rs -----

  datatype Limits = Limits(
    minFreqHz: U64, maxFreqHz: U64, maxSpanHz: U64, maxBandwidthHz: U64, maxDwellMs: U64,
    maxIqSamples: U64, maxIqBytes: U64, autoApproveIqBytes: U64, maxObservationAgeMs: U64)

  datatype Candidate = Candidate(id: string, centerHz: U64, bandwidthHz: U64)

  datatype Request = Request(
    requestId: U64, generation: U64, faulted: bool, sdrOnline: bool, canRetune: bool, canCaptureIq: bool,
    candidates: seq<Candidate>, limits: Limits)

  // The actions that use the radio.
  datatype Action =
    | SurveyBand(startHz: U64, stopHz: U64, stepHz: U64, sampleRateHz: U64, rfBandwidthHz: U64, dwellMs: U64)
    | InspectCandidate(candidateId: string, centerHz: U64, sampleRateHz: U64, rfBandwidthHz: U64, dwellMs: U64)
    | CaptureBoundedIq(candidateId: string, centerHz: U64, sampleRateHz: U64, rfBandwidthHz: U64, samples: U64)

  datatype PolicyError =
    | LimitsFrequency | LimitsSpan | LimitsBandwidth | LimitsDwell | LimitsIq | LimitsObservationAge
    | FaultedState | SdrOffline | RetuneUnavailable | CaptureUnavailable | OutsideFrequency
    | SurveySpan | SurveyStep | SurveyCoverage | SurveyPoints | SurveyDuration | SurveyBytes
    | SampleRate | RfBandwidth | Dwell | UnknownCandidate | CandidateMismatch | InspectDwell | InspectBytes
    | CaptureSamples | CaptureBytes

  function ValidateLimits(l: Limits): Option<PolicyError> {
    if !(70_000_000 <= l.minFreqHz < l.maxFreqHz) then Some(LimitsFrequency)
    else if l.maxFreqHz > 6_000_000_000 then Some(LimitsFrequency)
    else if !(0 < l.maxSpanHz <= l.maxFreqHz - l.minFreqHz) then Some(LimitsSpan)
    else if !(200_000 <= l.maxBandwidthHz <= 56_000_000) then Some(LimitsBandwidth)
    else if !(1 <= l.maxDwellMs <= 60_000) then Some(LimitsDwell)
    else if !(l.maxIqSamples > 0 && l.maxIqBytes > 0 && l.autoApproveIqBytes <= l.maxIqBytes) then Some(LimitsIq)
    else if l.maxObservationAgeMs == 0 then Some(LimitsObservationAge)
    else None
  }

  // The limits a controller may be given: a span inside 70 MHz to 6 GHz, and none of them empty.
  lemma LimitsAcceptedIff(l: Limits)
    ensures ValidateLimits(l).None? <==>
              && 70_000_000 <= l.minFreqHz && l.maxFreqHz <= 6_000_000_000 && l.maxSpanHz >= 1
              && l.minFreqHz + l.maxSpanHz <= l.maxFreqHz
              && 200_000 <= l.maxBandwidthHz <= 56_000_000 && 1 <= l.maxDwellMs <= 60_000
              && l.maxIqSamples >= 1 && l.maxIqBytes >= 1 && l.autoApproveIqBytes <= l.maxIqBytes && l.maxObservationAgeMs >= 1
  {
  }

  predicate FrequencyAllowed(f: U64, l: Limits) { l.minFreqHz <= f <= l.maxFreqHz }

  function ProfileError(sampleRateHz: U64, rfBandwidthHz: U64, l: Limits): Option<PolicyError> {
    if !(2_100_000 <= sampleRateHz <= 30_720_000) then Some(SampleRate)
    else if !(200_000 <= rfBandwidthHz <= l.maxBandwidthHz && rfBandwidthHz <= sampleRateHz) then Some(RfBandwidth)
    else None
  }

  function FindCandidate(candidates: seq<Candidate>, id: string): Option<Candidate> {
    if candidates == [] then None
    else if candidates[0].id == id then Some(candidates[0])
    else FindCandidate(candidates[1..], id)
  }

  // The policy's own count of the points of a survey.
  function SurveyPointCount(a: Action): Option<nat>
    requires a.SurveyBand? && a.startHz <= a.stopHz && a.stepHz > 0
  {
    var span := a.stopHz - a.startHz;
    if span + (a.stepHz - 1) > U64_MAX then None else Some((span + (a.stepHz - 1)) / a.stepHz + 1)
  }

  function ValidateSurvey(q: Request, a: Action): (r: Result<bool, PolicyError>)
    requires a.SurveyBand?
  {
    var l := q.limits;
    if !FrequencyAllowed(a.startHz, l) || !FrequencyAllowed(a.stopHz, l) then Err(OutsideFrequency)
    else if !(a.startHz < a.stopHz && a.stopHz - a.startHz <= l.maxSpanHz) then Err(SurveySpan)
    else if !(0 < a.stepHz <= a.stopHz - a.startHz) then Err(SurveyStep)
    else if ProfileError(a.sampleRateHz, a.rfBandwidthHz, l).Some? then
      Err(ProfileError(a.sampleRateHz, a.rfBandwidthHz, l).value)
    else if a.stepHz > CoverageStep(a.rfBandwidthHz) then Err(SurveyCoverage)
    else if !(0 < a.dwellMs <= l.maxDwellMs) then Err(Dwell)
    else match SurveyPointCount(a)
      case None => Err(SurveyPoints)
      case Some(points) =>
        if points > MAX_POINTS then Err(SurveyPoints)
        else if points * Saturate(a.dwellMs + SURVEY_POINT_TIMEOUT_MS) > MAX_DURATION_MS then Err(SurveyDuration)
        else if points * SURVEY_FRAME_BYTES > l.maxIqBytes then Err(SurveyBytes)
        else Ok(false)
  }

  function ValidateInspection(q: Request, a: Action): (r: Result<bool, PolicyError>)
    requires a.InspectCandidate?
  {
    var l := q.limits;
    match FindCandidate(q.candidates, a.candidateId)
    case None => Err(UnknownCandidate)
    case Some(c) =>
      if !FrequencyAllowed(a.centerHz, l) then Err(OutsideFrequency)
      else if ProfileError(a.sampleRateHz, a.rfBandwidthHz, l).Some? then
        Err(ProfileError(a.sampleRateHz, a.rfBandwidthHz, l).value)
      else if !(AbsDiff(a.centerHz, c.centerHz) <= c.bandwidthHz || AbsDiff(a.centerHz, c.centerHz) <= a.rfBandwidthHz) then
        Err(CandidateMismatch)
      else if !(0 < a.dwellMs <= l.maxDwellMs) then Err(Dwell)
      else if a.dwellMs > 1_000 then Err(InspectDwell)
      else if SURVEY_FRAME_BYTES > l.maxIqBytes then Err(InspectBytes)
      else Ok(false)
  }

  function ValidateCapture(q: Request, a: Action): (r: Result<bool, PolicyError>)
    requires a.CaptureBoundedIq?
  {
    var l := q.limits;
    match FindCandidate(q.candidates, a.candidateId)
    case None => Err(UnknownCandidate)
    case Some(c) =>
      if !FrequencyAllowed(a.centerHz, l) then Err(OutsideFrequency)
      else if AbsDiff(a.centerHz, c.centerHz) > c.bandwidthHz then Err(CandidateMismatch)
      else if ProfileError(a.sampleRateHz, a.rfBandwidthHz, l).Some? then
        Err(ProfileError(a.sampleRateHz, a.rfBandwidthHz, l).value)
      else if !(0 < a.samples <= l.maxIqSamples) then Err(CaptureSamples)
      else if a.samples * 4 > U64_MAX then Err(CaptureBytes)
      else if a.samples * 4 > l.maxIqBytes then Err(CaptureBytes)
      else Ok(a.samples * 4 > l.autoApproveIqBytes)
  }

  // Ok(true): the action needs an operator's approval.
  function ValidateAction(q: Request, a: Action): (r: Result<bool, PolicyError>) {
    if q.faulted then Err(FaultedState)
    else if !q.sdrOnline then Err(SdrOffline)
    else if a.CaptureBoundedIq? then
      if q.canCaptureIq then ValidateCapture(q, a) else Err(CaptureUnavailable)
    else if !q.canRetune then Err(RetuneUnavailable)
    else if a.SurveyBand? then ValidateSurvey(q, a)
    else ValidateInspection(q, a)
  }

  // validate_request, then validate_action.
  predicate Accepted(q: Request, a: Action) { ValidateLimits(q.limits).None? && ValidateAction(q, a).Ok? }

  predicate ProfileAllowed(sampleRateHz: U64, rfBandwidthHz: U64, l: Limits) {
    2_100_000 <= sampleRateHz <= 30_720_000 && 200_000 <= rfBandwidthHz <= Min(l.maxBandwidthHz, sampleRateHz)
  }

  predicate Nearby(f: nat, center: nat, reach: nat) { center - reach <= f <= center + reach }

  // What a survey may ask for, on unbounded numbers: nothing saturates in an accepted one.
  ghost predicate SurveyAllowed(l: Limits, a: Action)
    requires a.SurveyBand?
  {
    && l.minFreqHz <= a.startHz < a.stopHz <= l.maxFreqHz && a.stopHz - a.startHz <= l.maxSpanHz
    && 0 < a.stepHz <= a.stopHz - a.startHz && 5 * a.stepHz <= 4 * a.rfBandwidthHz
    && ProfileAllowed(a.sampleRateHz, a.rfBandwidthHz, l) && 0 < a.dwellMs <= l.maxDwellMs
    && exists intervals: nat :: IntervalsAllowed(l, a, intervals)
  }

  // So many steps, and no fewer, reach from start to stop; the points they make stay within time and bytes.
  ghost predicate IntervalsAllowed(l: Limits, a: Action, intervals: nat)
    requires a.SurveyBand?
  {
    && 0 < intervals < MAX_POINTS && (intervals - 1) * a.stepHz < a.stopHz - a.startHz <= intervals * a.stepHz
    && (intervals + 1) * (a.dwellMs + 250) <= 300_000 && (intervals + 1) * 16_384 <= l.maxIqBytes
  }

  lemma IntervalsAreRoundedUp(l: Limits, a: Action, intervals: nat)
    requires a.SurveyBand? && 0 < a.stepHz <= a.stopHz - a.startHz && IntervalsAllowed(l, a, intervals)
    ensures intervals == CeilDiv(a.stopHz - a.startHz, a.stepHz)
  {
    CeilDivLeast(a.stopHz - a.startHz, a.stepHz, intervals);
    CeilDivLeast(a.stopHz - a.startHz, a.stepHz, intervals - 1);
  }

  lemma CountIsIntervals(a: Action)
    requires a.SurveyBand? && 0 < a.stepHz <= a.stopHz - a.startHz && a.stopHz <= 6_000_000_000
    ensures SurveyPointCount(a) == Some(CeilDiv(a.stopHz - a.startHz, a.stepHz) + 1)
  {
  }

  // The policy accepts a survey if and only if the radio is there and may be tuned and the survey is allowed; it
  // never needs approval.
  lemma SurveyAcceptedIff(q: Request, a: Action)
    requires a.SurveyBand? && ValidateLimits(q.limits).None?
    ensures ValidateAction(q, a).Ok? <==> !q.faulted && q.sdrOnline && q.canRetune && SurveyAllowed(q.limits, a)
    ensures ValidateAction(q, a).Ok? ==> !ValidateAction(q, a).value
  {
    if ValidateSurvey(q, a).Ok? {
      CountIsIntervals(a);
      StepsBound(a.stopHz - a.startHz, a.stepHz);
      assert IntervalsAllowed(q.limits, a, CeilDiv(a.stopHz - a.startHz, a.stepHz));
    }
    if SurveyAllowed(q.limits, a) {
      var intervals: nat :| IntervalsAllowed(q.limits, a, intervals);
      IntervalsAreRoundedUp(q.limits, a, intervals);
      CountIsIntervals(a);
    }
  }

  // An accepted capture: bounded, near its candidate, and with the operator's approval exactly from one byte over
  // the automatic bound.
  lemma CaptureAcceptedIff(q: Request, a: Action)
    requires a.CaptureBoundedIq? && ValidateLimits(q.limits).None?
    ensures var l, found := q.limits, FindCandidate(q.candidates, a.candidateId);
            ValidateAction(q, a).Ok? <==>
              && !q.faulted && q.sdrOnline && q.canCaptureIq && found.Some?
              && l.minFreqHz <= a.centerHz <= l.maxFreqHz && Nearby(a.centerHz, found.value.centerHz, found.value.bandwidthHz)
              && ProfileAllowed(a.sampleRateHz, a.rfBandwidthHz, l)
              && 0 < a.samples <= l.maxIqSamples && 4 * a.samples <= l.maxIqBytes
    ensures ValidateAction(q, a).Ok? ==> (ValidateAction(q, a).value <==> 4 * a.samples > q.limits.autoApproveIqBytes)
  {
  }

  // An accepted inspection: within the limits, near its candidate or within the band it looks at, and short; it never
  // needs approval.
  lemma InspectionAcceptedIff(q: Request, a: Action)
    requires a.InspectCandidate? && ValidateLimits(q.limits).None?
    ensures var l, found := q.limits, FindCandidate(q.candidates, a.candidateId);
            ValidateAction(q, a).Ok? <==>
              && !q.faulted && q.sdrOnline && q.canRetune && found.Some? && l.minFreqHz <= a.centerHz <= l.maxFreqHz
              && Nearby(a.centerHz, found.value.centerHz, if found.value.bandwidthHz > a.rfBandwidthHz then found.value.bandwidthHz
                                                          else a.rfBandwidthHz)
              && ProfileAllowed(a.sampleRateHz, a.rfBandwidthHz, l)
              && 0 < a.dwellMs <= Min(l.maxDwellMs, 1_000) && 16_384 <= l.maxIqBytes
    ensures ValidateAction(q, a).Ok? ==> !ValidateAction(q, a).value
  {
  }

  // The candidate a planner names is the first of that name, if there is one.
  lemma {:induction false} FoundIsFirst(candidates: seq<Candidate>, id: string)
    ensures FindCandidate(candidates, id).Some? <==> exists i :: 0 <= i < |candidates| && candidates[i].id == id
    ensures FindCandidate(candidates, id).Some? ==>
              exists i :: 0 <= i < |candidates| && candidates[i] == FindCandidate(candidates, id).value
                          && candidates[i].id == id && forall j :: 0 <= j < i ==> candidates[j].id != id
  {
    if candidates != [] && candidates[0].id != id {
      var rest := candidates[1..];
      FoundIsFirst(rest, id);
      if FindCandidate(rest, id).Some? {
        var i :| 0 <= i < |rest| && rest[i] == FindCandidate(rest, id).value && rest[i].id == id
                 && forall j :: 0 <= j < i ==> rest[j].id != id;
        assert candidates[i + 1] == rest[i];
        forall j | 0 <= j < i + 1 ensures candidates[j].id != id {
          if j > 0 { assert candidates[j] == rest[j - 1]; }
        }
      } else {
        forall i | 0 <= i < |candidates| ensures candidates[i].id != id {
          if i > 0 { assert candidates[i] == rest[i - 1]; }
        }
      }
    }
  }

  // ----- runner.rs -----

  function Digit(d: nat): char
    requires d < 10
  {
    '0' + d as char
  }

  function Decimal(n: nat): string { if n < 10 then [Digit(n)] else Decimal(n / 10) + [Digit(n % 10)] }

  function Pow10(k: nat): nat { if k == 0 then 1 else 10 * Pow10(k - 1) }

  lemma {:induction false} DecimalShape(n: nat, k: nat)
    requires k > 0 && n < Pow10(k)
    ensures 0 < |Decimal(n)| <= k
    ensures forall i :: 0 <= i < |Decimal(n)| ==> '0' <= Decimal(n)[i] <= '9'
    decreases n
  {
    if n >= 10 {
      if k > 1 { DecimalShape(n / 10, k - 1); }
    }
  }

  lemma DecimalOfU64(n: U64)
    ensures 0 < |Decimal(n)| <= 20
    ensures forall i :: 0 <= i < |Decimal(n)| ==> '0' <= Decimal(n)[i] <= '9'
  {
    assert Pow10(4) == 10_000;
    assert Pow10(8) == 100_000_000;
    assert Pow10(12) == 1_000_000_000_000;
    assert Pow10(16) == 10_000_000_000_000_000;
    assert Pow10(20) == 100_000_000_000_000_000_000;
    DecimalShape(n, 20);
  }

  function PlanFor(q: Request, a: Action, gainDb: int, pointTimeoutMs: nat): Plan
    requires !a.CaptureBoundedIq?
  {
    match a
    case SurveyBand(start, stop, step, rate, bandwidth, dwell) =>
      Plan("request-" + Decimal(q.requestId), q.generation, Range(start, stop, step), rate, bandwidth, dwell,
           SURVEY_FRAME_SAMPLES, 1, pointTimeoutMs, 12.0, Some(gainDb))
    case InspectCandidate(_, center, rate, bandwidth, dwell) =>
      Plan("inspect-" + Decimal(q.requestId), q.generation, Centers([center]), rate, bandwidth, dwell,
           SURVEY_FRAME_SAMPLES, 1, pointTimeoutMs, 12.0, Some(gainDb))
  }

  lemma TranslatedIdIsSafe(q: Request, a: Action, gainDb: int, pointTimeoutMs: nat)
    requires !a.CaptureBoundedIq?
    ensures SafeId(PlanFor(q, a, gainDb, pointTimeoutMs).sweepId)
  {
    DecimalOfU64(q.requestId);
  }

  // Within the radio's range a step that divides it into few enough intervals never leaves 64 bits.
  lemma ExpandableInRange(start: nat, stop: nat, step: nat)
    requires start <= stop <= 6_000_000_000 && 0 < step <= stop - start
    requires CeilDiv(stop - start, step) <= MAX_POINTS
    ensures Expandable(start, stop, step) && CeilDiv(stop - start, step) >= 1
  {
    var n := CeilDiv(stop - start, step);
    StepsBound(stop - start, step);
    assert (n - 1) * step == n * step - step;
  }

  // The centers of an accepted survey pass every check of validate_plan that is about them.
  lemma SurveyExpands(q: Request, a: Action)
    requires a.SurveyBand? && Accepted(q, a)
    ensures var r := ExpandCenters(Range(a.startHz, a.stopHz, a.stepHz));
            && r.Ok? && |r.value| == SurveyPointCount(a).value && 1 < |r.value| <= MAX_POINTS
            && Ascending(r.value) && InRadioRange(r.value) && GapsWithin(r.value, CoverageStep(a.rfBandwidthHz))
  {
    ExpandableInRange(a.startHz, a.stopHz, a.stepHz);
    RangeIsAscending(a.startHz, a.stopHz, a.stepHz);
  }

  // Every center of an accepted survey lies within the frequency limits, and all of them within the span limit.
  lemma SurveyStaysInLimits(q: Request, a: Action, i: nat, j: nat)
    requires a.SurveyBand? && Accepted(q, a)
    requires i <= j < |RangeCenters(a.startHz, a.stopHz, a.stepHz)|
    ensures var c := RangeCenters(a.startHz, a.stopHz, a.stepHz);
            && q.limits.minFreqHz <= c[i] <= q.limits.maxFreqHz
            && AbsDiff(c[i], c[j]) <= q.limits.maxSpanHz
  {
    RangeIsAscending(a.startHz, a.stopHz, a.stepHz);
  }

  // Which accepted surveys the executor runs: exactly these.  Policy and executor then count the same points, time
  // and bytes; the policy bounds the dwell by max_dwell_ms only, so the executor's own bound of 1000 ms remains.
  lemma SurveyRuns(q: Request, a: Action, gainDb: int, pointTimeoutMs: nat)
    requires a.SurveyBand? && Accepted(q, a)
    ensures var p := PlanFor(q, a, gainDb, pointTimeoutMs);
            var points := SurveyPointCount(a).value;
            && (ValidatePlan(p).Ok? <==>
                  && q.generation != 0 && 0 <= gainDb <= 60 && a.dwellMs <= 1_000
                  && 1 <= pointTimeoutMs <= 5_000 && (a.dwellMs + pointTimeoutMs) * points <= MAX_DURATION_MS)
            && (q.generation != 0 && 0 <= gainDb <= 60 && a.dwellMs > 1_000 ==> ValidatePlan(p) == Err(SummaryProfile))
            && (ValidatePlan(p).Ok? ==>
                  var v := ValidatePlan(p).value;
                  |v.centersHz| == points && v.durationMs == (a.dwellMs + pointTimeoutMs) * points)
  {
    TranslatedIdIsSafe(q, a, gainDb, pointTimeoutMs);
    SurveyExpands(q, a);
  }

  // The case the controller ships: a point timeout of 250 ms.
  lemma SurveyRunsIffShortDwell(q: Request, a: Action, gainDb: int)
    requires a.SurveyBand? && Accepted(q, a) && q.generation != 0 && 0 <= gainDb <= 60
    ensures var p := PlanFor(q, a, gainDb, SURVEY_POINT_TIMEOUT_MS);
            var points := SurveyPointCount(a).value;
            && (ValidatePlan(p).Ok? <==> a.dwellMs <= 1_000)
            && (a.dwellMs > 1_000 ==> ValidatePlan(p) == Err(SummaryProfile))
            && (ValidatePlan(p).Ok? ==>
                  var v := ValidatePlan(p).value;
                  && |v.centersHz| == points
                  && v.durationMs == points * (a.dwellMs + SURVEY_POINT_TIMEOUT_MS)
                  && IqBytes(v) == points * SURVEY_FRAME_BYTES <= q.limits.maxIqBytes)
  {
    var points, pointMs := SurveyPointCount(a).value, a.dwellMs + SURVEY_POINT_TIMEOUT_MS;
    assert points * pointMs == pointMs * points;
    SurveyRuns(q, a, gainDb, SURVEY_POINT_TIMEOUT_MS);
  }

  // An accepted inspection is one point and needs no bound on its dwell from the caller.
  lemma InspectionRuns(q: Request, a: Action, gainDb: int, pointTimeoutMs: nat)
    requires a.InspectCandidate? && Accepted(q, a)
    ensures var p := PlanFor(q, a, gainDb, pointTimeoutMs);
            && (ValidatePlan(p).Ok? <==> q.generation != 0 && 0 <= gainDb <= 60 && 1 <= pointTimeoutMs <= 5_000)
            && (ValidatePlan(p).Ok? ==> ValidatePlan(p).value.centersHz == [a.centerHz])
  {
    TranslatedIdIsSafe(q, a, gainDb, pointTimeoutMs);
    var p := PlanFor(q, a, gainDb, pointTimeoutMs);
    assert ExpandCenters(p.frequencies) == Ok([a.centerHz]);
  }

  // A survey the policy accepts and the executor refuses.
  const LONG_DWELL := SurveyBand(100_000_000, 101_000_000, 1_000_000, 5_000_000, 2_000_000, 1_001)
  const USUAL := Limits(70_000_000, 6_000_000_000, 1_000_000_000, 56_000_000, 5_000, 65_536, 262_144, 4_096, 1_000)

  lemma LongDwellIsRefusedLate(gainDb: int)
    requires 0 <= gainDb <= 60
    ensures var q := Request(1, 1, false, true, true, true, [], USUAL);
            Accepted(q, LONG_DWELL) && ValidatePlan(PlanFor(q, LONG_DWELL, gainDb, 250)) == Err(SummaryProfile)
  {
  }
}
