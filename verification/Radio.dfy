/**
 The receive path as the adapter drives it: attribute writes that may be refused
 half-way (adapter_apply_profile), the readback that decides success
 (verify_profile), and the write-back of a snapshot (adapter_restore).
 */
module Radio {
  import opened Arithmetic

  datatype GainMode = Manual | SlowAttack | FastAttack | Hybrid | Unlisted(name: string)

  datatype Settings = Settings(
    centerHz: nat, rateHz: nat, bandwidthHz: nat, mode: GainMode, gainDb: real, scanMask: nat)

  // Where an attribute ended up after a write, and whether the driver reported success.
  datatype Write<T> = Landed(value: T) | Refused(value: T)

  // A write-back of a snapshot value: success puts the attribute exactly there.
  datatype WriteBack<T> = Exact | Lost(value: T)

  // What the hardware does during one adapter_apply_profile.
  datatype TuneOutcome = TuneOutcome(
    rate: Write<nat>, bandwidth: Write<nat>, mode: Write<GainMode>, gain: Write<real>,
    center: Write<nat>, settled: bool, scanMask: nat, readable: bool)

  // What the hardware does during one adapter_restore.
  datatype RestoreOutcome = RestoreOutcome(
    rate: WriteBack<nat>, bandwidth: WriteBack<nat>, mode: WriteBack<GainMode>, gain: WriteBack<real>,
    center: WriteBack<nat>)

  // verify_profile: the radio reads back as the requested profile, the LO within 10 Hz and a
  // manual gain within 0.05 dB, on scan channels 0 and 1.
  predicate Tuned(radio: Settings, profile: Settings) {
    && AbsDiff(radio.centerHz, profile.centerHz) <= 10
    && radio.rateHz == profile.rateHz
    && radio.bandwidthHz == profile.bandwidthHz
    && radio.mode == profile.mode
    && (profile.mode.Manual? ==> -0.05 <= radio.gainDb - profile.gainDb <= 0.05)
    && radio.scanMask == 3
  }

  // Back where it was.  The hardware gain counts only when the original mode is manual.
  predicate Same(radio: Settings, original: Settings) {
    && radio.centerHz == original.centerHz
    && radio.rateHz == original.rateHz
    && radio.bandwidthHz == original.bandwidthHz
    && radio.mode == original.mode
    && (original.mode.Manual? ==> radio.gainDb == original.gainDb)
    && radio.scanMask == original.scanMask
  }

  // The state after adapter_apply_profile, and whether it returned zero.
  function Apply(radio: Settings, profile: Settings, o: TuneOutcome): (Settings, bool) {
    var r1 := radio.(rateHz := o.rate.value);
    if o.rate.Refused? then (r1, false) else
    var r2 := r1.(bandwidthHz := o.bandwidth.value);
    if o.bandwidth.Refused? then (r2, false) else
    var r3 := r2.(mode := o.mode.value);
    if o.mode.Refused? then (r3, false) else
    var r4 := if profile.mode.Manual? then r3.(gainDb := o.gain.value) else r3;
    if profile.mode.Manual? && o.gain.Refused? then (r4, false) else
    var r5 := r4.(centerHz := o.center.value);
    if o.center.Refused? || !o.settled then (r5, false) else
    var r6 := r5.(scanMask := o.scanMask);
    (r6, o.readable && Tuned(r6, profile))
  }

  // Every write lands, and the radio then reads back as the profile.
  predicate Lands(profile: Settings, o: TuneOutcome) {
    && o.rate == Landed(profile.rateHz) && o.bandwidth == Landed(profile.bandwidthHz) && o.mode == Landed(profile.mode)
    && (profile.mode.Manual? ==> o.gain.Landed? && -0.05 <= o.gain.value - profile.gainDb <= 0.05)
    && o.center.Landed? && AbsDiff(o.center.value, profile.centerHz) <= 10
    && o.settled && o.readable && o.scanMask == 3
  }

  // An apply succeeds exactly then, and every attribute is what the writes left; an automatic gain stays untouched.
  lemma ApplySucceeds(radio: Settings, profile: Settings, o: TuneOutcome)
    ensures Apply(radio, profile, o).1 <==> Lands(profile, o)
    ensures Lands(profile, o) ==>
              Apply(radio, profile, o).0 == Settings(o.center.value, profile.rateHz, profile.bandwidthHz, profile.mode,
                                                     if profile.mode.Manual? then o.gain.value else radio.gainDb, 3)
  {
  }

  // The state after adapter_restore, and whether it returned zero.
  function Restore(radio: Settings, saved: Settings, o: RestoreOutcome): (Settings, bool) {
    var r1 := radio.(rateHz := if o.rate.Exact? then saved.rateHz else o.rate.value);
    if o.rate.Lost? then (r1, false) else
    var r2 := r1.(bandwidthHz := if o.bandwidth.Exact? then saved.bandwidthHz else o.bandwidth.value);
    if o.bandwidth.Lost? then (r2, false) else
    var r3 := r2.(mode := if o.mode.Exact? then saved.mode else o.mode.value);
    if o.mode.Lost? then (r3, false) else
    var r4 := if saved.mode.Manual? then r3.(gainDb := if o.gain.Exact? then saved.gainDb else o.gain.value) else r3;
    if saved.mode.Manual? && o.gain.Lost? then (r4, false) else
    var r5 := r4.(centerHz := if o.center.Exact? then saved.centerHz else o.center.value);
    if o.center.Lost? then (r5, false) else
    if saved.scanMask >= 16 then (r5, false) else
    (r5.(scanMask := saved.scanMask), true)
  }

  // A write-back that the saved state needs was lost, or its scan mask is no mask.
  predicate RestoreLost(saved: Settings, o: RestoreOutcome) {
    || o.rate.Lost? || o.bandwidth.Lost? || o.mode.Lost? || (saved.mode.Manual? && o.gain.Lost?) || o.center.Lost?
    || saved.scanMask >= 16
  }

  // A restore succeeds exactly when no write-back it needs is lost, and then the radio is back.
  lemma RestoreSucceeds(radio: Settings, saved: Settings, o: RestoreOutcome)
    ensures Restore(radio, saved, o).1 <==> !RestoreLost(saved, o)
    ensures !RestoreLost(saved, o) ==> Same(Restore(radio, saved, o).0, saved)
    ensures forall original :: Same(saved, original) ==> (RestoreLost(saved, o) <==> RestoreLost(original, o))
  {
  }

  // Both operations leave the radio where their success promises.
  lemma TuneAndRestoreReach(radio: Settings, target: Settings, t: TuneOutcome, r: RestoreOutcome)
    ensures Apply(radio, target, t).1 ==> Tuned(Apply(radio, target, t).0, target)
    ensures Restore(radio, target, r).1 ==> Same(Restore(radio, target, r).0, target)
  {
  }

  class IioRadio {
    var now: Settings
    var sequence: nat

    constructor (initial: Settings)
      ensures now == initial && sequence == 0
    {
      now, sequence := initial, 0;
    }

    // adapter_apply_profile: one attribute at a time, stopping at the first refusal.
    method ApplyProfile(profile: Settings, o: TuneOutcome) returns (ok: bool)
      modifies this`now
      ensures (now, ok) == Apply(old(now), profile, o)
    {
      now := now.(rateHz := o.rate.value);
      if o.rate.Refused? { return false; }
      now := now.(bandwidthHz := o.bandwidth.value);
      if o.bandwidth.Refused? { return false; }
      now := now.(mode := o.mode.value);
      if o.mode.Refused? { return false; }
      if profile.mode.Manual? {
        now := now.(gainDb := o.gain.value);
        if o.gain.Refused? { return false; }
      }
      now := now.(centerHz := o.center.value);
      if o.center.Refused? || !o.settled { return false; }
      now := now.(scanMask := o.scanMask);
      ok := o.readable && Tuned(now, profile);
    }

    // adapter_restore, in the order of the source; there is no readback.
    method WriteBackAll(saved: Settings, o: RestoreOutcome) returns (ok: bool)
      modifies this`now
      ensures (now, ok) == Restore(old(now), saved, o)
    {
      now := now.(rateHz := if o.rate.Exact? then saved.rateHz else o.rate.value);
      if o.rate.Lost? { return false; }
      now := now.(bandwidthHz := if o.bandwidth.Exact? then saved.bandwidthHz else o.bandwidth.value);
      if o.bandwidth.Lost? { return false; }
      now := now.(mode := if o.mode.Exact? then saved.mode else o.mode.value);
      if o.mode.Lost? { return false; }
      if saved.mode.Manual? {
        now := now.(gainDb := if o.gain.Exact? then saved.gainDb else o.gain.value);
        if o.gain.Lost? { return false; }
      }
      now := now.(centerHz := if o.center.Exact? then saved.centerHz else o.center.value);
      if o.center.Lost? { return false; }
      if saved.scanMask >= 16 { return false; }
      now := now.(scanMask := saved.scanMask);
      ok := true;
    }
  }
}
