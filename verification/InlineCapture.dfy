/**
 What an accepted CAPTURE_IQ_INLINE consists of: the adapter's capture loop of IqCapture
 seen through the contract handle_capture_iq_inline checks.
 */
module InlineCapture {
  import opened Outcome
  import opened Base64
  import opened Adapter = IqCapture
  import opened Session

  const SHORT_REFILL_FLAG: nat := 1
  const RADIO_STATE_FLAG: nat := 64

  // The first `count` samples of a fault-free stream, every refill of which was a full buffer.
  ghost predicate FullRefills(refills: nat -> Refill, count: nat, bufferSamples: nat, used: nat, iq: seq<byte>) {
    && NoIqFault(refills, used) && AllFull(refills, used, bufferSamples)
    && count <= |Stream(refills, used)| && iq == Flatten(Stream(refills, used)[..count])
  }

  // What an outcome of the adapter promises a handler that accepts it for an inline request.
  ghost predicate Delivers(refills: nat -> Refill, bufferSamples: nat, a: CaptureArgs, o: CaptureOutcome) {
    o.CaptureDone? && InlineContract(a, o.result) ==>
      exists used :: FullRefills(refills, a.samples, bufferSamples, used, o.result.iq)
  }

  // What a finished adapter_capture_iq reports: exactly the samples asked for, out of a fault-free stream, the samples
  // its refills fell short, and the time limit it was given.
  ghost predicate Reports(refills: nat -> Refill, a: CaptureArgs, bufferSamples: nat, timeoutMs: nat, r: CaptureResult) {
    && r.samples == a.samples && r.bytes == 4 * a.samples && |r.iq| == r.bytes
    && !r.overflow && !r.timedOut && r.timeoutMs == timeoutMs && r.pathOk
    && exists used ::
         && NoIqFault(refills, used) && a.samples <= |Stream(refills, used)|
         && r.iq == Flatten(Stream(refills, used)[..a.samples]) && r.dropped == Shortfall(refills, used, bufferSamples)
  }

  // adapter_capture_iq as the handler sees it.
  method AdapterCapture(refills: nat -> Refill, a: CaptureArgs, bufferSamples: nat, timeoutMs: nat, elapsedUs: nat, maskOk: bool)
    returns (o: CaptureOutcome)
    ensures Delivers(refills, bufferSamples, a, o)
    ensures o.CaptureDone? <==> Brings(refills, a.samples)
    ensures o.CaptureDone? ==> Reports(refills, a, bufferSamples, timeoutMs, o.result)
    ensures o.CaptureDone? ==> (InlineContract(a, o.result) <==> o.result.dropped == 0 && maskOk && timeoutMs != 0)
  {
    var run := Adapter.CaptureIq(refills, a.samples, bufferSamples);
    if run.Stopped? { return CaptureFailed(run.fault.Timeout?, true); }
    var flags := (if run.shortRefill then SHORT_REFILL_FLAG else 0) + (if maskOk then 0 else RADIO_STATE_FLAG);
    o := CaptureDone(CaptureResult(a.samples, a.samples * 4, run.dropped, false, timeoutMs, elapsedUs, false, flags, true,
                                   Flatten(run.file)));
    assert o.result.iq == Flatten(Stream(refills, run.used)[..a.samples]);
    if run.dropped == 0 {
      assert FullRefills(refills, a.samples, bufferSamples, run.used, o.result.iq);
    }
  }

  // The bytes the client decodes from an accepted inline capture are those samples, in order.
  lemma ClientSeesFullRefills(refills: nat -> Refill, count: nat, bufferSamples: nat, used: nat, iq: seq<byte>)
    requires FullRefills(refills, count, bufferSamples, used, iq) && count > 0
    ensures Decode(Encode(iq)) == Some(iq) && |iq| == 4 * count && Chunk(iq) == Stream(refills, used)[..count]
  {
    RoundTrip(iq);
    ChunkOfFlatten(Stream(refills, used)[..count]);
  }
}
