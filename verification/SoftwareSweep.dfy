/**
 The software sweep of software_sweep.rs: plan limits, the refills that complete one
 sweep point, and the merging of candidate bands over all points.
 */
module SoftwareSweep {
  import opened Outcome
  import opened Arithmetic
  import opened Aggregator

  // ----- SoftwareSweepPlan::validate -----

  const MAX_SWEEP_BYTES: nat := 64 * 1024 * 1024
  const MAX_SWEEP_MS: nat := 60_000

  datatype Plan = Plan(
    centersHz: seq<int>, maxPoints: nat, sampleRateHz: int, rfBandwidthHz: int, bufferSamples: nat, settleMs: nat,
    fftSize: nat, overlapPercent: nat, framesPerPoint: nat, coarseBins: nat, thresholdDb: real, mergeGapBins: nat,
    continuousStepHz: Option<int>)

  datatype Estimate = Estimate(points: nat, refillsPerPoint: nat, networkBytes: nat, durationMs: nat)

  datatype PlanFault =
    | PointCount | MaxPoints | CenterRange | BadProfile | BufferSize | SettleTime | FftSize | Frames | CoarseBins
    | Threshold | ContinuousStep | NetworkBytes | Duration

  // The samples that complete one snapshot.
  function RequiredSamples(p: Plan): nat
    requires p.overlapPercent <= 75 && p.framesPerPoint > 0
  {
    p.fftSize + (p.framesPerPoint - 1) * Hop(p.fftSize, p.overlapPercent)
  }

  // The checks of each field.
  function FieldFault(p: Plan): Option<PlanFault> {
    if |p.centersHz| == 0 || |p.centersHz| > p.maxPoints then Some(PointCount)
    else if p.maxPoints == 0 || p.maxPoints > 256 then Some(MaxPoints)
    else if exists i :: 0 <= i < |p.centersHz| && !(70_000_000 <= p.centersHz[i] <= 6_000_000_000) then Some(CenterRange)
    else if !(2_083_333 <= p.sampleRateHz <= 30_720_000) || !(200_000 <= p.rfBandwidthHz <= 56_000_000)
            || p.sampleRateHz < p.rfBandwidthHz then Some(BadProfile)
    else if !(1_024 <= p.bufferSamples <= 1_048_576) then Some(BufferSize)
    else if p.settleMs > 5_000 then Some(SettleTime)
    else if p.fftSize < 64 || !PowerOfTwo(p.fftSize) then Some(FftSize)
    else if p.overlapPercent > 75 || p.framesPerPoint == 0 || p.framesPerPoint > 256 then Some(Frames)
    else if p.coarseBins == 0 || p.coarseBins > p.fftSize then Some(CoarseBins)
    else if p.thresholdDb <= 0.0 then Some(Threshold)
    else if p.continuousStepHz.Some?
            && (p.continuousStepHz.value <= 0 || p.continuousStepHz.value * 5 > p.rfBandwidthHz * 4) then Some(ContinuousStep)
    else None
  }

  function SweepBytes(p: Plan, refills: nat): nat { |p.centersHz| * refills * p.bufferSamples * 4 }
  function SettlingMs(p: Plan): nat { |p.centersHz| * p.settleMs }

  // On unbounded numbers: where the source's 64-bit sizes saturate, the byte cap refuses the plan either way.
  function Validate(p: Plan): (r: Result<Estimate, PlanFault>) {
    match FieldFault(p)
    case Some(fault) => Err(fault)
    case None =>
      var refills := CeilDiv(RequiredSamples(p), p.bufferSamples);
      var bytes := SweepBytes(p, refills);
      if bytes > MAX_SWEEP_BYTES then Err(NetworkBytes)
      else
        var duration := CeilDiv(bytes / 4 * 1_000, p.sampleRateHz) + SettlingMs(p);
        if duration > MAX_SWEEP_MS then Err(Duration)
        else Ok(Estimate(|p.centersHz|, refills, bytes, duration))
  }

  // The least number of buffers that brings the samples of a point, the bytes they all are, and the least number of
  // milliseconds in which so many samples come.
  predicate Costs(p: Plan, refills: nat, bytes: nat, captureMs: nat) {
    && p.overlapPercent <= 75 && p.framesPerPoint > 0
    && (refills - 1) * p.bufferSamples < RequiredSamples(p) <= refills * p.bufferSamples
    && bytes == SweepBytes(p, refills)
    && (captureMs - 1) * p.sampleRateHz < bytes / 4 * 1_000 <= captureMs * p.sampleRateHz
  }

  ghost predicate Allowed(p: Plan) {
    && 1 <= |p.centersHz| <= p.maxPoints <= 256
    && (forall f :: f in p.centersHz ==> 70_000_000 <= f <= 6_000_000_000)
    && 2_083_333 <= p.sampleRateHz <= 30_720_000 && 200_000 <= p.rfBandwidthHz <= p.sampleRateHz
    && 1_024 <= p.bufferSamples <= 1_048_576 && p.settleMs <= 5_000
    && p.fftSize >= 64 && IsPow2(p.fftSize) && p.overlapPercent <= 75 && 1 <= p.framesPerPoint <= 256
    && 1 <= p.coarseBins <= p.fftSize && p.thresholdDb > 0.0
    && (p.continuousStepHz.Some? ==> 0 < p.continuousStepHz.value && 5 * p.continuousStepHz.value <= 4 * p.rfBandwidthHz)
  }

  lemma FieldsAllowedIff(p: Plan)
    ensures FieldFault(p).None? <==> Allowed(p)
  {
    PowersOfTwo(p.fftSize);
    forall i | 0 <= i < |p.centersHz| ensures p.centersHz[i] in p.centersHz { }
    if FieldFault(p).None? {
      forall f | f in p.centersHz ensures 70_000_000 <= f <= 6_000_000_000 {
        var i :| 0 <= i < |p.centersHz| && p.centersHz[i] == f;
      }
    }
  }

  lemma CeilIsLeast(a: nat, b: nat, n: nat)
    requires b > 0 && (n - 1) * b < a <= n * b
    ensures n == CeilDiv(a, b)
  {
    CeilDivLeast(a, b, n);
    if n > 0 { CeilDivLeast(a, b, n - 1); }
  }

  // A plan is accepted exactly when it is allowed and its bytes and its time, settling included, are within their
  // caps, and the estimate says what they are.
  lemma PlanAcceptedIff(p: Plan, refills: nat, bytes: nat, captureMs: nat)
    requires Allowed(p) ==> Costs(p, refills, bytes, captureMs)
    ensures Validate(p).Ok? <==> Allowed(p) && bytes <= 67_108_864 && captureMs + SettlingMs(p) <= 60_000
    ensures Validate(p).Ok? ==>
              Validate(p).value == Estimate(|p.centersHz|, refills, bytes, captureMs + SettlingMs(p))
  {
    FieldsAllowedIff(p);
    if Allowed(p) {
      CeilIsLeast(RequiredSamples(p), p.bufferSamples, refills);
      CeilIsLeast(bytes / 4 * 1_000, p.sampleRateHz, captureMs);
    }
  }

  // A plan of three points: one refill of 8192 samples each, 32 KiB of samples a point.
  lemma ThreePoints()
    ensures Validate(Plan([2_440_000_000, 2_441_000_000, 2_442_000_000], 64, 2_100_000, 2_000_000, 8_192, 5, 2_048, 50, 4,
                          96, 12.0, 1, Some(1_000_000)))
            == Ok(Estimate(3, 1, 98_304, 27))
  {
    assert PowerOfTwo(2_048);
    assert Hop(2_048, 50) == 1_024;
  }

  // The aggregator run_inner builds for a plan.
  function ConfigOf(p: Plan): Config
    requires |p.centersHz| > 0
  {
    Config(p.centersHz[0], p.sampleRateHz, p.fftSize, p.overlapPercent, p.framesPerPoint, p.coarseBins, p.thresholdDb,
           p.mergeGapBins, 1)
  }

  function ShapeOf(p: Plan, fft: Fft): (sh: Shape)
    requires p.overlapPercent <= 75 && p.fftSize > 0 && p.framesPerPoint > 0
    ensures ShapeOk(sh)
  {
    Shape(p.fftSize, Hop(p.fftSize, p.overlapPercent), p.framesPerPoint, fft)
  }

  // A snapshot is complete exactly from RequiredSamples on.
  lemma FirstSnapshot(sh: Shape, samples: nat)
    requires ShapeOk(sh)
    ensures SnapshotCount(sh, samples) >= 1 <==> samples >= sh.n + (sh.frames - 1) * sh.hop
  {
    var frames := FrameCount(sh, samples);
    assert SnapshotCount(sh, samples) >= 1 <==> frames >= sh.frames by {
      if frames < sh.frames { DivUnique(frames, sh.frames, 0, frames); }
      else { DivAtLeast(frames, sh.frames, 1); }
    }
    if samples >= sh.n {
      DivAtLeast(samples - sh.n, sh.hop, sh.frames - 1);
    } else {
      MulLe(0, sh.frames - 1, sh.hop);
    }
  }

  // A validated plan builds a valid aggregator, and refills_per_point is exactly the number of full buffers after
  // which a sweep point has its snapshot: as many always suffice, and fewer never do.
  lemma RefillsComplete(p: Plan, fft: Fft, k: nat)
    requires Validate(p).Ok?
    ensures ConfigFault(ConfigOf(p)).None?
    ensures SnapshotCount(ShapeOf(p, fft), k * p.bufferSamples) >= 1 <==> k >= Validate(p).value.refillsPerPoint
  {
    FirstSnapshot(ShapeOf(p, fft), k * p.bufferSamples);
    CeilDivLeast(RequiredSamples(p), p.bufferSamples, k);
  }

  // ----- one sweep point -----

  datatype Refill = Failed | Got(samples: seq<Sample>)
  datatype PointFault = RefillFailed | ShortRefill | NotCompleted

  function Received(refills: nat -> Refill, k: nat): seq<Sample> {
    if k == 0 then []
    else Received(refills, k - 1) + (if refills(k - 1).Got? then refills(k - 1).samples else [])
  }

  lemma {:induction false} ReceivedLength(refills: nat -> Refill, k: nat, size: nat)
    requires forall i: nat :: i < k ==> refills(i).Got? && |refills(i).samples| == size
    ensures |Received(refills, k)| == k * size
  {
    if k > 0 {
      ReceivedLength(refills, k - 1, size);
      assert k * size == (k - 1) * size + size;
    }
  }

  // The refill loop of run_inner for one center: with full buffers it always has a snapshot, the last one of the
  // batch reading of everything received since the retune.
  method RunPoint(p: Plan, agg: SpectrumAggregator, observedHz: int, refills: nat -> Refill)
    returns (r: Result<Snapshot, PointFault>)
    requires Validate(p).Ok? && agg.Built() && agg.sh == ShapeOf(p, agg.fft)
    modifies agg, agg.ring, agg.fftInput, agg.accumulated
    ensures r.Ok? <==> forall i: nat :: i < Validate(p).value.refillsPerPoint ==>
                         refills(i).Got? && |refills(i).samples| == p.bufferSamples
    ensures r.Ok? ==> var batch := Batch(agg.sh, Received(refills, Validate(p).value.refillsPerPoint));
                      |batch| > 0 && r.value == batch[|batch| - 1]
    ensures r.Err? ==> r.error != NotCompleted
  {
    var needed := Validate(p).value.refillsPerPoint;
    agg.ResetForCenter(observedHz);
    var completed: seq<Snapshot> := [];
    var k: nat := 0;
    NoBatch(agg.sh);
    while k < needed
      invariant k <= needed && agg.Valid() && agg.fed == Received(refills, k)
      invariant completed == Batch(agg.sh, agg.fed)
      invariant forall i: nat :: i < k ==> refills(i).Got? && |refills(i).samples| == p.bufferSamples
    {
      var refill := refills(k);
      if refill.Failed? { return Err(RefillFailed); }
      if |refill.samples| != p.bufferSamples { return Err(ShortRefill); }
      var more := agg.PushIq(refill.samples);
      completed := completed + more;
      k := k + 1;
    }
    ReceivedLength(refills, needed, p.bufferSamples);
    RefillsComplete(p, agg.fft, needed);
    assert |Batch(agg.sh, agg.fed)| > 0;
    if |completed| == 0 { return Err(NotCompleted); }
    r := Ok(completed[|completed| - 1]);
  }

  lemma NoBatch(sh: Shape)
    requires ShapeOk(sh)
    ensures Batch(sh, []) == []
  {
  }
}
