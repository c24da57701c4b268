/**
 Captures from the antenna to the reply: the daemon's handlers over the refill loops of its
 adapter.
 */
module CaptureService {
  import opened Outcome
  import opened Arithmetic
  import opened Base64
  import opened Session
  import opened SessionHost
  import opened SessionAnswers
  import Adapter = IqCapture
  import opened InlineCapture

  // CAPTURE_IQ: a stream that brings the samples before its first fault is answered with exactly those samples, and any
  // other closes the session.
  method ServeCapture(cfg: Config, be: Backend, host: Host, id: nat, a: CaptureArgs, o: Outcomes,
                      refills: nat -> Adapter.Refill, bufferSamples: nat, elapsedUs: nat, maskOk: bool)
    returns (reply: Reply, ops: seq<RadioOp>)
    requires Admitted(cfg, be, host.View(), id) && CaptureInOrder(cfg, host.View(), a)
    requires 4 * a.samples <= a.maxBytes <= cfg.maxCaptureBytes
    modifies host, host.radio
    ensures reply.CaptureReply? <==> Adapter.Brings(refills, a.samples)
    ensures reply.CaptureReply? ==>
              && reply.id == id && reply.generation == a.generation && reply.sequence == old(host.radio.sequence) + 1
              && Reports(refills, a, bufferSamples, EffectiveTimeout(cfg, a.timeoutMs), reply.result)
              && host.View() == Noted(old(host.View()), id).(sequence := old(host.radio.sequence) + 1)
    ensures (OpStop in ops) <==> !Adapter.Brings(refills, a.samples)
  {
    var capture := AdapterCapture(refills, a, bufferSamples, EffectiveTimeout(cfg, a.timeoutMs), elapsedUs, maskOk);
    CaptureAnswered(cfg, be, host.View(), id, a, o.(capture := capture));
    reply, ops := host.HandleRequest(cfg, be, Line(id, CaptureIq(Some(a))), o.(capture := capture));
  }

  // CAPTURE_IQ_INLINE: answered exactly when the stream brings the samples in full refills, the scan channels are
  // still the profile's, and the file can be read back.
  method ServeInline(cfg: Config, be: Backend, host: Host, id: nat, a: CaptureArgs, o: Outcomes,
                     refills: nat -> Adapter.Refill, bufferSamples: nat, elapsedUs: nat, maskOk: bool)
    returns (reply: Reply, ops: seq<RadioOp>)
    requires Admitted(cfg, be, host.View(), id) && CaptureInOrder(cfg, host.View(), a)
    requires 4 * a.samples == a.maxBytes <= cfg.maxCaptureBytes && a.maxBytes <= 256 * 1024
    modifies host, host.radio
    ensures reply.InlineReply? ==>
              && reply.id == id && reply.generation == a.generation && reply.sequence == old(host.radio.sequence) + 1
              && Reports(refills, a, bufferSamples, EffectiveTimeout(cfg, a.timeoutMs), reply.result)
              && reply.result.dropped == 0 && Decode(reply.iqBase64) == Some(reply.result.iq)
    ensures (OpStop in ops) <==> !reply.InlineReply?
    ensures reply.InlineReply? ==> maskOk && o.pathsOk && o.transferOk && Adapter.Brings(refills, a.samples)
    ensures maskOk && o.pathsOk && o.transferOk && Adapter.Brings(refills, a.samples) && AlwaysFull(refills, bufferSamples) ==>
              reply.InlineReply?
  {
    var capture := AdapterCapture(refills, a, bufferSamples, EffectiveTimeout(cfg, a.timeoutMs), elapsedUs, maskOk);
    ghost var d := host.View();
    ghost var o' := o.(capture := capture);
    InlineAnswered(cfg, be, d, id, a, o');
    if capture.CaptureDone? {
      RoundTrip(capture.result.iq);
      NeverShort(refills, a, bufferSamples, EffectiveTimeout(cfg, a.timeoutMs), capture.result);
    }
    assert Handle(cfg, be, d, Line(id, CaptureIqInline(Some(a))), o') == HandleInline(cfg, be, Noted(d, id), id, Some(a), o');
    reply, ops := host.HandleRequest(cfg, be, Line(id, CaptureIqInline(Some(a))), o.(capture := capture));
  }

  ghost predicate AlwaysFull(refills: nat -> Adapter.Refill, bufferSamples: nat) {
    forall k: nat :: Adapter.AllFull(refills, k, bufferSamples)
  }

  lemma NeverShort(refills: nat -> Adapter.Refill, a: CaptureArgs, bufferSamples: nat, timeoutMs: nat, r: CaptureResult)
    requires Reports(refills, a, bufferSamples, timeoutMs, r)
    ensures AlwaysFull(refills, bufferSamples) ==> r.dropped == 0
  {
    var used :| Adapter.NoIqFault(refills, used) && r.dropped == Adapter.Shortfall(refills, used, bufferSamples);
    Adapter.NoShortfall(refills, used, bufferSamples);
  }

  // adapter_capture_power as the handler sees it.
  method AdapterPower(refills: nat -> Adapter.Refill, a: PowerArgs, bufferSamples: nat, maskOk: bool) returns (o: PowerOutcome)
    requires 0 < a.frameSamples * a.aggregateFrames <= Adapter.MAX_POWER_SAMPLES
    ensures o.PowerDone? <==> Adapter.BringsPower(refills, a.frameSamples * a.aggregateFrames)
    ensures o.PowerDone? ==> Totals(refills, a.frameSamples * a.aggregateFrames, o.samples, o.power, o.clips)
    ensures o.PowerDone? ==> (o.flags == 0 ==> maskOk)
  {
    var count := a.frameSamples * a.aggregateFrames;
    var run := Adapter.CapturePower(refills, count, bufferSamples);
    if run.Broken? { return PowerFailed(run.fault.Timeout?); }
    var flags := (if run.dropped > 0 then SHORT_REFILL_FLAG else 0) + (if maskOk then 0 else RADIO_STATE_FLAG);
    o := PowerDone(count, run.lo + run.mid * Adapter.U32, run.clips, flags);
  }

  // The three figures of a summary, each of the first `count` samples of the stream.
  ghost predicate Totals(refills: nat -> Adapter.Refill, count: nat, samples: nat, power: nat, clips: nat) {
    exists used: nat ::
      && Adapter.NoPowerFault(refills, used) && count <= |Adapter.Stream(refills, used)| && samples == count
      && power == Adapter.PowerSum(Adapter.Stream(refills, used)[..count])
      && clips == Adapter.ClipCount(Adapter.Stream(refills, used)[..count])
  }

  // CAPTURE_POWER: each figure of the reply is the one of its name.
  method ServePower(cfg: Config, be: Backend, host: Host, id: nat, a: PowerArgs, o: Outcomes,
                    refills: nat -> Adapter.Refill, bufferSamples: nat, maskOk: bool)
    returns (reply: Reply, ops: seq<RadioOp>)
    requires Admitted(cfg, be, host.View(), id) && be.power && PowerInOrder(host.View(), a)
    modifies host, host.radio
    ensures reply.PowerReply? <==> Adapter.BringsPower(refills, a.frameSamples * a.aggregateFrames)
    ensures reply.PowerReply? ==>
              && reply.generation == a.generation && reply.sequence == old(host.radio.sequence) + 1
              && Totals(refills, a.frameSamples * a.aggregateFrames, reply.samples, reply.power, reply.clips)
    ensures (OpStop in ops) <==> !reply.PowerReply?
  {
    MulLe(1, a.aggregateFrames, a.frameSamples);
    var power := AdapterPower(refills, a, bufferSamples, maskOk);
    PowerAnswered(cfg, be, host.View(), id, a, o.(power := power));
    reply, ops := host.HandleRequest(cfg, be, Line(id, CapturePower(Some(a))), o.(power := power));
  }
}
