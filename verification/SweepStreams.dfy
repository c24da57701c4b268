/**
 The controller's sweep from the antenna on: run_sdrd_points over a daemon whose captures
 are the refill loops of its adapter.
 */
module SweepStreams {
  import opened Outcome
  import opened Base64
  import opened Radio
  import opened Session
  import opened IqCapture
  import opened InlineCapture
  import opened SweepClient
  import Plans = SweepPlan

  // Every capture of the run is one of AdapterCapture, over the refills of its request.
  ghost predicate FromAdapter(foreign: nat -> Outcomes, streams: nat -> nat -> Refill, bufferSamples: nat) {
    forall id: nat, a: CaptureArgs {:trigger Delivers(streams(id), bufferSamples, a, foreign(id).capture)} ::
      Delivers(streams(id), bufferSamples, a, foreign(id).capture)
  }

  // `power` is the power of the first `count` samples of a fault-free stream of full refills.
  ghost predicate PowerOfStream(refills: nat -> Refill, bufferSamples: nat, count: nat, power: nat) {
    exists used ::
      && NoIqFault(refills, used) && AllFull(refills, used, bufferSamples)
      && count <= |Stream(refills, used)| && power == PowerSum(Stream(refills, used)[..count])
  }

  lemma MeasuredStream(v: Plans.ValidatedPlan, i: nat, p: Point, iq: seq<byte>, o: Outcomes, refills: nat -> Refill, bufferSamples: nat)
    requires Measured(v, i, p, iq, o) && Delivers(refills, bufferSamples, CaptureLine(v, i), o.capture)
    ensures PowerOfStream(refills, bufferSamples, PointSamples(v), p.power)
  {
    var used :| FullRefills(refills, PointSamples(v), bufferSamples, used, iq);
    ChunkOfFlatten(Stream(refills, used)[..PointSamples(v)]);
  }

  // Each point of a completed sweep holds the power of the first samples its own refill stream brought, every refill
  // of it a full buffer.
  method SweepStreamed(v: Plans.ValidatedPlan, be: Backend, radio: IioRadio, foreign: nat -> Outcomes, lost: nat -> bool,
                       ghost streams: nat -> nat -> Refill, ghost bufferSamples: nat)
    returns (r: Result<seq<Point>, ClientError>)
    requires Valid(v) && be.available && FromAdapter(foreign, streams, bufferSamples)
    modifies radio
    ensures r.Ok? <==> Completes(v, old(radio.now), foreign, lost)
    ensures r.Ok? ==> Faithful(v, r.value) && Same(radio.now, old(radio.now))
    ensures r.Ok? ==> forall i :: 0 <= i < |r.value| ==>
                        PowerOfStream(streams(r.value[i].requestId), bufferSamples, PointSamples(v), r.value[i].power)
  {
    ghost var replies, iqs;
    r, replies, iqs := RunSdrdPoints(v, be, radio, foreign, lost);
    if r.Ok? {
      forall i | 0 <= i < |r.value|
        ensures PowerOfStream(streams(r.value[i].requestId), bufferSamples, PointSamples(v), r.value[i].power)
      {
        var id := r.value[i].requestId;
        assert Delivers(streams(id), bufferSamples, CaptureLine(v, i), foreign(id).capture);
        MeasuredStream(v, i, r.value[i], iqs[i], foreign(id), streams(id), bufferSamples);
      }
    }
  }
}
