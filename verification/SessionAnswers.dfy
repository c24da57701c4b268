/**
 Which requests of the session machine are answered, and how: for every command the exact
 condition under which sdrd_handle_request says yes, and that nothing else closes a session.
 */
module SessionAnswers {
  import opened Outcome
  import opened Arithmetic
  import opened Radio
  import opened Session
  import opened SessionRuns

  // The line may be handled: the daemon controls a radio, and its number is new.
  predicate Admitted(cfg: Config, be: Backend, d: Daemon, id: nat) {
    cfg.controlled && be.available && id != 0 && (d.session.lastRequestId == 0 || id > d.session.lastRequestId)
  }

  function Noted(d: Daemon, id: nat): Daemon { d.(session := d.session.(lastRequestId := id)) }

  predicate Closes(st: Step) { exists i :: 0 <= i < |st.ops| && st.ops[i].OpStop? }

  lemma StartAnswered(cfg: Config, be: Backend, d: Daemon, id: nat, g: nat, o: Outcomes)
    requires Admitted(cfg, be, d, id)
    ensures var st := Handle(cfg, be, d, Line(id, StartSession(Some(g))), o);
            && (st.reply == Owned(id, g) <==> g != 0 && !d.session.faulted && !d.session.active && o.snapshotOk && o.beginOk)
            && (st.reply.Owned? ==>
                  && st.after.radio == d.radio && st.after.session.active && st.after.session.generation == g
                  && !st.after.session.profileApplied && st.after.session.saved == d.radio)
            && !Closes(st)
  {
  }

  predicate ProfileInOrder(cfg: Config, d: Daemon, a: ProfileArgs) {
    && d.session.active && a.generation == d.session.generation && a.channels == 1
    && !a.mode.Unlisted? && (a.mode.Manual? ==> a.gainDb <= 60)
    && cfg.minCenterHz <= a.centerHz <= cfg.maxCenterHz && cfg.minRateHz <= a.rateHz <= cfg.maxRateHz
    && cfg.minBandwidthHz <= a.bandwidthHz <= cfg.maxBandwidthHz && a.bandwidthHz <= a.rateHz
  }

  // A profile within every bound is answered exactly when the radio lands on it, and a landing is all it takes.
  lemma ApplyAnswered(cfg: Config, be: Backend, d: Daemon, id: nat, a: ProfileArgs, o: Outcomes)
    requires Admitted(cfg, be, d, id) && ProfileInOrder(cfg, d, a)
    ensures var st := Handle(cfg, be, d, Line(id, ApplyProfile(Some(a))), o);
            && (st.reply == ProfileReply(id, a.generation, ProfileOf(a)) <==> Lands(ProfileOf(a), o.tune))
            && (Closes(st) <==> !Lands(ProfileOf(a), o.tune))
            && (Lands(ProfileOf(a), o.tune) ==>
                  && st.after.session.active && st.after.session.profileApplied && st.after.session.current == ProfileOf(a)
                  && Tuned(st.after.radio, ProfileOf(a)))
  {
    ApplySucceeds(d.radio, ProfileOf(a), o.tune);
    var st := Handle(cfg, be, d, Line(id, ApplyProfile(Some(a))), o);
    assert st == HandleApply(cfg, be, Noted(d, id), id, Some(a), o);
    if !Lands(ProfileOf(a), o.tune) { assert st.ops[1].OpStop?; }
  }

  // Letters, digits, '-' and '_', at most 63 of them.
  predicate Named(f: string) {
    1 <= |f| <= 63 && forall i :: 0 <= i < |f| ==> 65 <= f[i] as int <= 90 || 97 <= f[i] as int <= 122
                                                   || 48 <= f[i] as int <= 57 || f[i] as int in {45, 95}
  }

  // A capture the session is ready for, within its bounds.
  predicate CaptureInOrder(cfg: Config, d: Daemon, a: CaptureArgs) {
    && d.session.active && d.session.profileApplied && a.generation == d.session.generation
    && Named(a.featureId) && 0 < a.samples <= U64_MAX / 4
    && 0 < (if a.timeoutMs == 0 then cfg.iioTimeoutMs else a.timeoutMs) <= 5000
  }

  // The adapter failed, brought more than was asked, ran out of time or gave a bad path.
  predicate Faulty(a: CaptureArgs, c: CaptureOutcome) {
    c.CaptureFailed? ||
    var r := c.result;
    r.samples > a.samples || r.bytes > a.maxBytes || r.timeoutMs == 0 || r.timedOut || !r.pathOk
  }

  // A capture is answered with the adapter's own result unless the adapter is at fault, and only then the session is
  // closed; an answered one leaves session and radio alone.
  lemma CaptureAnswered(cfg: Config, be: Backend, d: Daemon, id: nat, a: CaptureArgs, o: Outcomes)
    requires Admitted(cfg, be, d, id) && CaptureInOrder(cfg, d, a)
    requires 4 * a.samples <= a.maxBytes <= cfg.maxCaptureBytes
    ensures var st := Handle(cfg, be, d, Line(id, CaptureIq(Some(a))), o);
            && (Closes(st) <==> Faulty(a, o.capture))
            && (!Faulty(a, o.capture) ==>
                  && st.after == Noted(d, id).(sequence := d.sequence + 1)
                  && st.reply == CaptureReply(id, a.generation, d.sequence + 1, o.capture.result))
  {
    var st := Handle(cfg, be, d, Line(id, CaptureIq(Some(a))), o);
    assert st == HandleCaptureIq(cfg, be, Noted(d, id), id, Some(a), o);
    if Faulty(a, o.capture) { assert st.ops[1].OpStop?; }
  }

  // An inline capture needs the exact bytes, every one of them fresh and deliverable.
  predicate Deliverable(a: CaptureArgs, o: Outcomes) {
    && o.capture.CaptureDone? && o.pathsOk && o.transferOk
    && var r := o.capture.result;
       && r.samples == a.samples && r.bytes == 4 * a.samples && |r.iq| == 4 * a.samples
       && r.dropped == 0 && !r.overflow && r.timeoutMs > 0 && !r.timedOut && r.flags == 0 && r.pathOk
  }

  lemma InlineAnswered(cfg: Config, be: Backend, d: Daemon, id: nat, a: CaptureArgs, o: Outcomes)
    requires Admitted(cfg, be, d, id) && CaptureInOrder(cfg, d, a)
    requires 4 * a.samples == a.maxBytes <= cfg.maxCaptureBytes && a.maxBytes <= 256 * 1024
    ensures var st := Handle(cfg, be, d, Line(id, CaptureIqInline(Some(a))), o);
            && (Closes(st) <==> !Deliverable(a, o))
            && (Deliverable(a, o) ==>
                  && st.after == Noted(d, id).(sequence := d.sequence + 1) && st.reply.InlineReply?
                  && st.reply == InlineReply(id, a.generation, d.sequence + 1, o.capture.result, st.reply.iqBase64))
  {
    var st := Handle(cfg, be, d, Line(id, CaptureIqInline(Some(a))), o);
    assert st == HandleInline(cfg, be, Noted(d, id), id, Some(a), o);
    if !Deliverable(a, o) { assert st.ops[1].OpStop?; }
  }

  predicate PowerInOrder(d: Daemon, a: PowerArgs) {
    && d.session.active && d.session.profileApplied && a.generation == d.session.generation
    && 64 <= a.frameSamples <= 65_535 && 1 <= a.aggregateFrames <= 65_535
    && a.frameSamples * a.aggregateFrames <= 1_048_576 && 1 <= a.timeoutMs <= 5_000
  }

  lemma PowerAnswered(cfg: Config, be: Backend, d: Daemon, id: nat, a: PowerArgs, o: Outcomes)
    requires Admitted(cfg, be, d, id) && be.power && PowerInOrder(d, a)
    ensures var st := Handle(cfg, be, d, Line(id, CapturePower(Some(a))), o);
            && (Closes(st) <==> o.power.PowerFailed?)
            && (o.power.PowerDone? ==>
                  && st.after == Noted(d, id).(sequence := d.sequence + 1) && st.reply.PowerReply?
                  && st.reply.id == id && st.reply.generation == a.generation && st.reply.sequence == d.sequence + 1
                  && st.reply.samples == o.power.samples && st.reply.power == o.power.power
                  && st.reply.clips == o.power.clips && st.reply.flags == o.power.flags)
  {
    var st := Handle(cfg, be, d, Line(id, CapturePower(Some(a))), o);
    assert st == HandlePower(be, Noted(d, id), id, Some(a), o);
    if o.power.PowerFailed? { assert st.ops[1].OpStop?; }
  }

  // STOP and QUIT are granted exactly when the radio stops and every write-back it needs lands.
  lemma StopAnswered(cfg: Config, be: Backend, d: Daemon, id: nat, o: Outcomes)
    requires Admitted(cfg, be, d, id) && d.session.active && d.session.restoreRequired
    ensures var st := Handle(cfg, be, d, Line(id, StopSession(Some(d.session.generation))), o);
            && (st.reply == Restored(id, d.session.generation) <==> o.stopOk && !RestoreLost(d.session.saved, o.restore))
            && (st.reply.Restored? ==> !st.after.session.active && Same(st.after.radio, d.session.saved))
  {
    RestoreSucceeds(d.radio, d.session.saved, o.restore);
  }

  lemma QuitAnswered(cfg: Config, be: Backend, d: Daemon, id: nat, o: Outcomes)
    requires Admitted(cfg, be, d, id)
    ensures var st := Handle(cfg, be, d, Line(id, Quit(true)), o);
            st.reply == Closing(id) <==>
              || (!d.session.active && !d.session.restoreRequired)
              || (o.stopOk && (d.session.restoreRequired ==> !RestoreLost(d.session.saved, o.restore)))
  {
    RestoreSucceeds(d.radio, d.session.saved, o.restore);
  }
}
