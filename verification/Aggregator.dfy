/**
 The streaming spectrum aggregator of aggregation.rs: a ring of the last `n` samples, a hop
 counter and a running sum of frame powers, proved to be plain sliding windows over the
 whole input.  The window function and the FFT are one parameter: `fft(frame, b)` is the
 normalised power of bin b of a windowed frame.  Powers are reals.
 */
module Aggregator {
  import opened Outcome
  import opened Arithmetic

  datatype Sample = Sample(i: int, q: int)
  const ZERO := Sample(0, 0)

  datatype Config = Config(
    centerHz: int, sampleRateHz: int, fftSize: nat, overlapPercent: nat, framesPerSnapshot: nat,
    coarseBins: nat, thresholdDb: real, mergeGapBins: nat, dcExclusionBins: nat)

  datatype ConfigError = BadSampleRate | BadFftSize | BadOverlap | BadFrames | BadCoarseBins | BadThreshold | BadDcExclusion

  predicate PowerOfTwo(n: nat) { n == 1 || (n > 0 && n % 2 == 0 && PowerOfTwo(n / 2)) }

  function ConfigFault(c: Config): Option<ConfigError> {
    if c.sampleRateHz <= 0 then Some(BadSampleRate)
    else if c.fftSize < 64 || !PowerOfTwo(c.fftSize) then Some(BadFftSize)
    else if c.overlapPercent > 75 then Some(BadOverlap)
    else if c.framesPerSnapshot == 0 then Some(BadFrames)
    else if c.coarseBins == 0 || c.coarseBins > c.fftSize then Some(BadCoarseBins)
    else if c.thresholdDb <= 0.0 then Some(BadThreshold)
    else if c.dcExclusionBins * 2 + 1 >= c.fftSize then Some(BadDcExclusion)
    else None
  }

  function Pow2(k: nat): (p: nat)
    ensures p > 0
  {
    if k == 0 then 1 else 2 * Pow2(k - 1)
  }

  lemma {:induction false} Pow2IsPower(k: nat)
    ensures PowerOfTwo(Pow2(k))
  {
    if k > 0 { Pow2IsPower(k - 1); }
  }

  lemma {:induction false} PowerIsPow2(n: nat) returns (k: nat)
    requires PowerOfTwo(n)
    ensures n == Pow2(k)
  {
    if n == 1 {
      k := 0;
    } else {
      k := PowerIsPow2(n / 2);
      k := k + 1;
    }
  }

  ghost predicate IsPow2(n: nat) { exists k: nat :: n == Pow2(k) }

  lemma PowersOfTwo(n: nat)
    ensures PowerOfTwo(n) <==> IsPow2(n)
  {
    if PowerOfTwo(n) { var k := PowerIsPow2(n); }
    if k: nat :| n == Pow2(k) { Pow2IsPower(k); }
  }

  // The configurations an aggregator may have: a frame is a power of two, and more bins remain than DC excludes.
  lemma ConfigAllowedIff(c: Config)
    ensures ConfigFault(c).None? <==>
              && c.sampleRateHz >= 1 && c.fftSize >= 64 && IsPow2(c.fftSize)
              && 0 <= c.overlapPercent <= 75 && c.framesPerSnapshot >= 1 && 1 <= c.coarseBins <= c.fftSize
              && c.thresholdDb > 0.0 && 2 * c.dcExclusionBins + 2 <= c.fftSize
  {
    PowersOfTwo(c.fftSize);
  }

  // hop_samples
  function Hop(fftSize: nat, overlapPercent: nat): (hop: nat)
    requires overlapPercent <= 75
    ensures 1 <= hop
  {
    var h := fftSize * (100 - overlapPercent) / 100;
    if h < 1 then 1 else h
  }

  // The hop is the largest step that leaves consecutive frames the configured overlap.
  lemma HopIsLargest(fftSize: nat, overlapPercent: nat)
    requires overlapPercent <= 75 && fftSize >= 64
    ensures var hop := Hop(fftSize, overlapPercent);
            && 100 * (fftSize - hop) >= overlapPercent * fftSize
            && 100 * (fftSize - (hop + 1)) < overlapPercent * fftSize
  {
  }

  // ----- the batch reading -----

  type Fft = (seq<Sample>, nat) -> real

  // Frame length, hop and frames a snapshot, as the constructor fixes them.
  datatype Shape = Shape(n: nat, hop: nat, frames: nat, fft: Fft)

  predicate ShapeOk(sh: Shape) { sh.n > 0 && sh.hop > 0 && sh.frames > 0 }

  // Frame k is samples [k*hop, k*hop + n) in time order.
  function Frame(sh: Shape, all: seq<Sample>, k: nat): seq<Sample> {
    var start := k * sh.hop;
    if start + sh.n <= |all| then all[start..start + sh.n] else []
  }

  // Where a bin goes when the spectrum is centered, and where a centered bin comes from.
  function Shift(n: nat, bin: nat): nat
    requires bin < n
  {
    (bin + n / 2) % n
  }

  function Unshift(n: nat, bin: nat): nat
    requires bin < n
  {
    if bin >= n / 2 then bin - n / 2 else bin + (n - n / 2)
  }

  lemma ShiftUnshift(n: nat, bin: nat)
    requires bin < n
    ensures Shift(n, bin) < n && Unshift(n, Shift(n, bin)) == bin
    ensures Unshift(n, bin) < n && Shift(n, Unshift(n, bin)) == bin
  {
    ModOnce(bin + n / 2, n);
    ModOnce(Unshift(n, bin) + n / 2, n);
  }

  // The summed power of frames [k, k + m) in centered bin b.
  function FrameSum(sh: Shape, all: seq<Sample>, k: nat, m: nat, b: nat): real
    requires b < sh.n
  {
    if m == 0 then 0.0
    else FrameSum(sh, all, k, m - 1, b) + sh.fft(Frame(sh, all, k + m - 1), Unshift(sh.n, b))
  }

  datatype Snapshot = Snapshot(sequence: nat, samplesSeen: nat, power: seq<real>)

  function FrameCount(sh: Shape, samples: nat): nat
    requires ShapeOk(sh)
  {
    if samples < sh.n then 0 else 1 + (samples - sh.n) / sh.hop
  }

  function SnapshotCount(sh: Shape, samples: nat): nat
    requires ShapeOk(sh)
  {
    FrameCount(sh, samples) / sh.frames
  }

  function Mean(sum: real, frames: nat): real
    requires frames > 0
  {
    sum * (1.0 / frames as real)
  }

  // The mean of so many frames, times their number, is their sum.
  lemma MeanOfFrames(sum: real, frames: nat)
    requires frames > 0
    ensures Mean(sum, frames) * frames as real == sum
  {
    var n := frames as real;
    assert 1.0 / n * n == 1.0;
    assert sum * (1.0 / n) * n == sum * (1.0 / n * n);
  }

  // Snapshot j averages frames [j*frames, (j+1)*frames).
  function BatchSnapshot(sh: Shape, all: seq<Sample>, j: nat): Snapshot
    requires ShapeOk(sh)
  {
    Snapshot(j, (j * sh.frames + (sh.frames - 1)) * sh.hop + sh.n,
             seq(sh.n, b requires 0 <= b < sh.n => Mean(FrameSum(sh, all, j * sh.frames, sh.frames, b), sh.frames)))
  }

  function Batch(sh: Shape, all: seq<Sample>): seq<Snapshot>
    requires ShapeOk(sh)
  {
    seq(SnapshotCount(sh, |all|), j requires 0 <= j => BatchSnapshot(sh, all, j))
  }

  // ----- the ring -----

  function Zeros(n: nat): seq<Sample> { seq(n, _ => ZERO) }

  // The last n samples, with zeros before the first.
  function Latest(n: nat, all: seq<Sample>): (w: seq<Sample>)
    ensures |w| == n
  {
    (Zeros(n) + all)[|all|..]
  }

  function Unrolled(ring: seq<Sample>, w: nat): seq<Sample>
    requires w <= |ring|
  {
    ring[w..] + ring[..w]
  }

  lemma LatestStep(n: nat, all: seq<Sample>, x: Sample)
    requires n > 0
    ensures Latest(n, all + [x]) == Latest(n, all)[1..] + [x]
  {
  }

  // Overwriting the oldest sample and advancing drops it from the front and puts the new one at the back.
  lemma UnrolledStep(ring: seq<Sample>, w: nat, x: Sample)
    requires w < |ring|
    ensures Unrolled(ring[w := x], if w + 1 == |ring| then 0 else w + 1) == Unrolled(ring, w)[1..] + [x]
  {
  }

  lemma RingStep(ring: seq<Sample>, w: nat, all: seq<Sample>, x: Sample)
    requires w < |ring| && Unrolled(ring, w) == Latest(|ring|, all)
    ensures (w + 1) % |ring| < |ring| && Unrolled(ring[w := x], (w + 1) % |ring|) == Latest(|ring|, all + [x])
  {
    ModOnce(w + 1, |ring|);
    LatestStep(|ring|, all, x);
    UnrolledStep(ring, w, x);
  }

  lemma IndexStep(n: nat, samples: nat)
    requires n > 0
    ensures (samples % n + 1) % n == (samples + 1) % n
  {
    var q, r := samples / n, samples % n;
    assert samples == q * n + r;
    ModOnce(r + 1, n);
    if r + 1 < n { DivUnique(samples + 1, n, q, r + 1); }
    else {
      assert (q + 1) * n == q * n + n;
      DivUnique(samples + 1, n, q + 1, 0);
    }
  }

  lemma LatestIsFrame(sh: Shape, all: seq<Sample>, k: nat)
    requires |all| == k * sh.hop + sh.n
    ensures Latest(sh.n, all) == Frame(sh, all, k)
  {
  }

  lemma FramePrefix(sh: Shape, all: seq<Sample>, more: seq<Sample>, k: nat)
    requires k * sh.hop + sh.n <= |all|
    ensures Frame(sh, all, k) == Frame(sh, all + more, k)
  {
  }

  lemma {:induction false} FrameSumPrefix(sh: Shape, all: seq<Sample>, more: seq<Sample>, k: nat, m: nat, b: nat)
    requires b < sh.n && (m > 0 ==> (k + m - 1) * sh.hop + sh.n <= |all|)
    ensures FrameSum(sh, all, k, m, b) == FrameSum(sh, all + more, k, m, b)
  {
    if m > 0 {
      var last := k + m - 1;
      if m > 1 { MulLe(last - 1, last, sh.hop); }
      FramePrefix(sh, all, more, last);
      FrameSumPrefix(sh, all, more, k, m - 1, b);
    }
  }

  // acc holds, bin by bin, the power of frames [k, k + m).
  ghost predicate Sums(sh: Shape, all: seq<Sample>, acc: seq<real>, k: nat, m: nat) {
    |acc| == sh.n && forall b :: 0 <= b < sh.n ==> acc[b] == FrameSum(sh, all, k, m, b)
  }

  lemma SumsExtend(sh: Shape, all: seq<Sample>, more: seq<Sample>, acc: seq<real>, k: nat, m: nat)
    requires Sums(sh, all, acc, k, m) && (m > 0 ==> (k + m - 1) * sh.hop + sh.n <= |all|)
    ensures Sums(sh, all + more, acc, k, m)
  {
    forall b | 0 <= b < sh.n ensures acc[b] == FrameSum(sh, all + more, k, m, b) {
      FrameSumPrefix(sh, all, more, k, m, b);
    }
  }

  lemma SumsStep(sh: Shape, all: seq<Sample>, acc: seq<real>, acc': seq<real>, k: nat, m: nat)
    requires Sums(sh, all, acc, k, m) && |acc'| == sh.n
    requires forall b :: 0 <= b < sh.n ==> acc'[b] == acc[b] + sh.fft(Frame(sh, all, k + m), Unshift(sh.n, b))
    ensures Sums(sh, all, acc', k, m + 1)
  {
  }

  lemma SumsAverage(sh: Shape, all: seq<Sample>, acc: seq<real>, j: nat, power: seq<real>, seen: nat, last: nat)
    requires ShapeOk(sh) && Sums(sh, all, acc, j * sh.frames, sh.frames) && |power| == sh.n
    requires forall b :: 0 <= b < sh.n ==> power[b] == Mean(acc[b], sh.frames)
    requires last == j * sh.frames + (sh.frames - 1) && seen == last * sh.hop + sh.n
    ensures Snapshot(j, seen, power) == BatchSnapshot(sh, all, j)
  {
  }

  lemma NextSums(sh: Shape, all: seq<Sample>, acc: seq<real>, j: nat)
    requires |acc| == sh.n && forall b :: 0 <= b < sh.n ==> acc[b] == 0.0
    ensures Sums(sh, all, acc, (j + 1) * sh.frames, 0) && (j + 1) * sh.frames == j * sh.frames + sh.frames
  {
  }

  // ----- the state -----

  // The fields of SpectrumAggregator, without the configuration and the scratch buffers.
  datatype Core = Core(
    ring: seq<Sample>, writeIndex: nat, filled: nat, sinceFrame: nat,
    acc: seq<real>, accFrames: nat, sequence: nat, seen: nat)

  function FramesDone(sh: Shape, c: Core): nat { c.sequence * sh.frames + c.accFrames }

  // The counters after `samples` samples, between two of them.
  ghost predicate Counted(sh: Shape, samples: nat, filled: nat, sinceFrame: nat, done: nat) {
    && filled == (if samples < sh.n then samples else sh.n)
    && (samples < sh.n ==> done == 0 && sinceFrame == 0)
    && (samples >= sh.n ==> done >= 1 && samples == (done - 1) * sh.hop + sh.n + sinceFrame && sinceFrame < sh.hop)
  }

  // The state an aggregator is in after the samples `all`.
  ghost predicate Tracks(sh: Shape, c: Core, all: seq<Sample>) {
    && ShapeOk(sh) && |c.ring| == sh.n && c.writeIndex == |all| % sh.n && Unrolled(c.ring, c.writeIndex) == Latest(sh.n, all)
    && c.seen == |all| && c.accFrames < sh.frames
    && Counted(sh, |all|, c.filled, c.sinceFrame, FramesDone(sh, c))
    && Sums(sh, all, c.acc, c.sequence * sh.frames, c.accFrames)
  }

  lemma CountedFrames(sh: Shape, samples: nat, filled: nat, sinceFrame: nat, done: nat)
    requires ShapeOk(sh) && Counted(sh, samples, filled, sinceFrame, done)
    ensures done == FrameCount(sh, samples)
    ensures sinceFrame == if samples < sh.n then 0 else (samples - sh.n) % sh.hop
  {
    if samples >= sh.n {
      DivUnique(samples - sh.n, sh.hop, done - 1, sinceFrame);
      assert (samples - sh.n) / sh.hop * sh.hop + (samples - sh.n) % sh.hop == samples - sh.n;
    }
  }

  // When the next sample completes a frame, and that the frames summed so far lie inside the samples.
  lemma Due(sh: Shape, samples: nat, filled: nat, sinceFrame: nat, done: nat, sequence: nat, accFrames: nat)
    requires ShapeOk(sh) && Counted(sh, samples, filled, sinceFrame, done) && done == sequence * sh.frames + accFrames
    ensures samples + 1 == sh.n ==> samples + 1 == done * sh.hop + sh.n
    ensures samples >= sh.n && sinceFrame + 1 == sh.hop ==> samples + 1 == done * sh.hop + sh.n
    ensures accFrames > 0 ==> (sequence * sh.frames + accFrames - 1) * sh.hop + sh.n <= samples
    ensures samples + 1 < sh.n ==> Counted(sh, samples + 1, filled + 1, sinceFrame, done)
    ensures samples + 1 == sh.n ==> Counted(sh, samples + 1, filled + 1, sinceFrame, done + 1)
    ensures samples >= sh.n && sinceFrame + 1 < sh.hop ==> Counted(sh, samples + 1, filled, sinceFrame + 1, done)
    ensures samples >= sh.n && sinceFrame + 1 == sh.hop ==> Counted(sh, samples + 1, filled, 0, done + 1)
  {
  }

  // The state is a function of the samples fed: it does not depend on how they were split into calls.
  lemma TrackedOnce(sh: Shape, c: Core, c': Core, all: seq<Sample>)
    requires Tracks(sh, c, all) && Tracks(sh, c', all)
    ensures c == c'
  {
    CountedFrames(sh, |all|, c.filled, c.sinceFrame, FramesDone(sh, c));
    CountedFrames(sh, |all|, c'.filled, c'.sinceFrame, FramesDone(sh, c'));
    DivUnique(FramesDone(sh, c), sh.frames, c.sequence, c.accFrames);
    DivUnique(FramesDone(sh, c'), sh.frames, c'.sequence, c'.accFrames);
    UnrolledOnce(c.ring, c'.ring, c.writeIndex);
    assert c.acc == c'.acc;
  }

  lemma TrackedCount(sh: Shape, c: Core, all: seq<Sample>)
    requires Tracks(sh, c, all)
    ensures c.sequence == SnapshotCount(sh, |all|)
  {
    CountedFrames(sh, |all|, c.filled, c.sinceFrame, FramesDone(sh, c));
    DivUnique(FramesDone(sh, c), sh.frames, c.sequence, c.accFrames);
  }

  lemma UnrolledOnce(r: seq<Sample>, r': seq<Sample>, w: nat)
    requires |r| == |r'| && w <= |r| && Unrolled(r, w) == Unrolled(r', w)
    ensures r == r'
  {
    var u := Unrolled(r, w);
    assert r == u[|r| - w..] + u[..|r| - w];
    assert r' == u[|r| - w..] + u[..|r| - w];
  }

  // The frames of a complete snapshot lie inside the samples.
  lemma FramesInside(sh: Shape, samples: nat, j: nat, last: nat)
    requires ShapeOk(sh) && j < SnapshotCount(sh, samples) && last == j * sh.frames + (sh.frames - 1)
    ensures last * sh.hop + sh.n <= samples
  {
    var frames := FrameCount(sh, samples);
    DivAtLeast(frames, sh.frames, j + 1);
    assert (j + 1) * sh.frames == last + 1;
    DivAtLeast(samples - sh.n, sh.hop, last);
  }

  // A snapshot already complete does not change when more samples come.
  lemma BatchSnapshotPrefix(sh: Shape, all: seq<Sample>, more: seq<Sample>, j: nat)
    requires ShapeOk(sh) && j < SnapshotCount(sh, |all|)
    ensures BatchSnapshot(sh, all, j) == BatchSnapshot(sh, all + more, j)
  {
    var k := j * sh.frames;
    FramesInside(sh, |all|, j, k + (sh.frames - 1));
    var p, p' := BatchSnapshot(sh, all, j).power, BatchSnapshot(sh, all + more, j).power;
    forall b | 0 <= b < sh.n ensures p[b] == p'[b] {
      FrameSumPrefix(sh, all, more, k, sh.frames, b);
    }
  }

  lemma BatchGrows(sh: Shape, all: seq<Sample>, more: seq<Sample>, out: seq<Snapshot>)
    requires ShapeOk(sh)
    requires SnapshotCount(sh, |all + more|) == SnapshotCount(sh, |all|) + |out|
    requires |out| <= 1 && (|out| == 1 ==> out[0] == BatchSnapshot(sh, all + more, SnapshotCount(sh, |all|)))
    ensures Batch(sh, all) + out == Batch(sh, all + more)
  {
    forall j | 0 <= j < SnapshotCount(sh, |all|) ensures Batch(sh, all)[j] == Batch(sh, all + more)[j] {
      BatchSnapshotPrefix(sh, all, more, j);
    }
  }

  class SpectrumAggregator {
    ghost const sh: Shape
    const config: Config
    const fft: Fft
    var centerHz: int
    const ring: array<Sample>
    const fftInput: array<Sample>
    const accumulated: array<real>
    var writeIndex: nat
    var filled: nat
    var sinceFrame: nat
    var accFrames: nat
    var sequence: nat
    var seen: nat
    ghost var fed: seq<Sample>

    ghost function State(): Core
      reads this, ring, accumulated
    {
      Core(ring[..], writeIndex, filled, sinceFrame, accumulated[..], accFrames, sequence, seen)
    }

    ghost predicate Built()
      reads this
    {
      && ConfigFault(config).None?
      && sh == Shape(config.fftSize, Hop(config.fftSize, config.overlapPercent), config.framesPerSnapshot, fft)
      && ring.Length == sh.n && fftInput.Length == sh.n && accumulated.Length == sh.n && ring != fftInput
    }

    ghost predicate Valid()
      reads this, ring, accumulated
    {
      Built() && Tracks(sh, State(), fed)
    }

    constructor (config: Config, fft: Fft)
      requires ConfigFault(config).None?
      ensures Valid() && fed == [] && this.config == config && this.fft == fft && centerHz == config.centerHz
      ensures fresh(ring) && fresh(fftInput) && fresh(accumulated)
    {
      this.config, this.fft, centerHz := config, fft, config.centerHz;
      sh := Shape(config.fftSize, Hop(config.fftSize, config.overlapPercent), config.framesPerSnapshot, fft);
      ring := new Sample[config.fftSize](_ => ZERO);
      fftInput := new Sample[config.fftSize](_ => ZERO);
      accumulated := new real[config.fftSize](_ => 0.0);
      writeIndex, filled, sinceFrame, accFrames, sequence, seen := 0, 0, 0, 0, 0, 0;
      fed := [];
      new;
      assert Unrolled(ring[..], 0) == Zeros(sh.n) == Latest(sh.n, []);
    }

    // reset_for_center: the state of a new aggregator, in the same buffers.
    method ResetForCenter(centerHz: int)
      requires Built()
      modifies this, ring, fftInput, accumulated
      ensures Valid() && fed == [] && this.centerHz == centerHz
    {
      this.centerHz := centerHz;
      forall k | 0 <= k < ring.Length { ring[k] := ZERO; }
      writeIndex, filled, sinceFrame := 0, 0, 0;
      forall k | 0 <= k < fftInput.Length { fftInput[k] := ZERO; }
      forall k | 0 <= k < accumulated.Length { accumulated[k] := 0.0; }
      accFrames, sequence, seen := 0, 0, 0;
      fed := [];
      assert Unrolled(ring[..], 0) == Zeros(sh.n) == Latest(sh.n, []);
    }

    // The frame in time order: the first loop of process_frame.
    method LoadFrame()
      requires Built() && writeIndex < ring.Length
      modifies fftInput
      ensures fftInput[..] == Unrolled(ring[..], writeIndex)
    {
      var index := 0;
      while index < ring.Length
        invariant 0 <= index <= ring.Length
        invariant forall k :: 0 <= k < index ==> fftInput[k] == Unrolled(ring[..], writeIndex)[k]
      {
        ModOnce(writeIndex + index, ring.Length);
        fftInput[index] := ring[(writeIndex + index) % ring.Length];
        index := index + 1;
      }
    }

    // Adding the frame's power, bin by bin, to its centered place.
    method AddSpectrum()
      requires Built()
      modifies accumulated
      ensures forall b :: 0 <= b < sh.n ==>
                accumulated[b] == old(accumulated[b]) + fft(fftInput[..], Unshift(sh.n, b))
    {
      var n := config.fftSize;
      var bin := 0;
      while bin < n
        invariant 0 <= bin <= n
        invariant forall b :: 0 <= b < n ==>
                    accumulated[b] == if Unshift(n, b) < bin then old(accumulated[b]) + fft(fftInput[..], Unshift(n, b))
                                      else old(accumulated[b])
      {
        var shifted := (bin + n / 2) % n;
        ShiftUnshift(n, bin);
        accumulated[shifted] := accumulated[shifted] + fft(fftInput[..], bin);
        forall b | 0 <= b < n ensures Unshift(n, b) == bin <==> b == shifted {
          ShiftUnshift(n, b);
        }
        bin := bin + 1;
      }
      forall b | 0 <= b < n ensures Unshift(n, b) < n { ShiftUnshift(n, b); }
    }

    // The average of the frames summed so far; the sums start over.
    method TakeAverage() returns (power: seq<real>)
      requires Built() && accFrames > 0
      modifies accumulated
      ensures |power| == sh.n && forall b :: 0 <= b < sh.n ==> power[b] == Mean(old(accumulated[b]), accFrames)
      ensures forall b :: 0 <= b < sh.n ==> accumulated[b] == 0.0
    {
      var scale := 1.0 / accFrames as real;
      var bin := 0;
      while bin < accumulated.Length
        invariant 0 <= bin <= accumulated.Length
        invariant forall b :: 0 <= b < bin ==> accumulated[b] == Mean(old(accumulated[b]), accFrames)
        invariant forall b :: bin <= b < accumulated.Length ==> accumulated[b] == old(accumulated[b])
      {
        accumulated[bin] := accumulated[bin] * scale;
        bin := bin + 1;
      }
      power := accumulated[..];
      forall k | 0 <= k < accumulated.Length { accumulated[k] := 0.0; }
    }

    // The first half of process_frame: the latest n samples join the sums of frames [k, k + m) as frame `done`.
    method SumFrame(ghost k: nat, ghost m: nat, ghost done: nat)
      requires Built() && writeIndex < sh.n && Unrolled(ring[..], writeIndex) == Latest(sh.n, fed)
      requires done == k + m && |fed| == done * sh.hop + sh.n && Sums(sh, fed, accumulated[..], k, m)
      modifies fftInput, accumulated
      ensures Sums(sh, fed, accumulated[..], k, m + 1)
    {
      LatestIsFrame(sh, fed, done);
      LoadFrame();
      ghost var before := accumulated[..];
      AddSpectrum();
      SumsStep(sh, fed, before, accumulated[..], k, m);
    }

    // With the frame counted.
    method CountFrame(ghost done: nat)
      requires Built() && writeIndex < sh.n && Unrolled(ring[..], writeIndex) == Latest(sh.n, fed)
      requires done == sequence * sh.frames + accFrames && |fed| == done * sh.hop + sh.n
      requires Sums(sh, fed, accumulated[..], sequence * sh.frames, accFrames)
      modifies fftInput, accumulated, this`accFrames
      ensures accFrames == old(accFrames) + 1
      ensures Sums(sh, fed, accumulated[..], sequence * sh.frames, accFrames)
    {
      SumFrame(sequence * sh.frames, accFrames, done);
      accFrames := accFrames + 1;
    }

    // The second half, when the average is complete with frame number `last`.
    method TakeSnapshot(ghost last: nat) returns (out: Snapshot)
      requires Built() && accFrames == sh.frames && Sums(sh, fed, accumulated[..], sequence * sh.frames, sh.frames)
      requires last == sequence * sh.frames + (sh.frames - 1) && seen == last * sh.hop + sh.n
      modifies accumulated, this`accFrames, this`sequence
      ensures accFrames == 0 && sequence == old(sequence) + 1 && sequence * sh.frames == last + 1
      ensures Sums(sh, fed, accumulated[..], sequence * sh.frames, 0)
      ensures out == BatchSnapshot(sh, fed, old(sequence))
    {
      ghost var summed := accumulated[..];
      var power := TakeAverage();
      SumsAverage(sh, fed, summed, sequence, power, seen, last);
      out := Snapshot(sequence, seen, power);
      NextSums(sh, fed, accumulated[..], sequence);
      accFrames := 0;
      sequence := sequence + 1;
    }

    // process_frame, when frame number `done` is complete.
    method ProcessFrame(ghost done: nat) returns (out: Option<Snapshot>)
      requires Built() && writeIndex < sh.n && Unrolled(ring[..], writeIndex) == Latest(sh.n, fed)
      requires done == sequence * sh.frames + accFrames && seen == |fed| == done * sh.hop + sh.n
      requires accFrames < sh.frames && Sums(sh, fed, accumulated[..], sequence * sh.frames, accFrames)
      modifies fftInput, accumulated, this`accFrames, this`sequence
      ensures accFrames < sh.frames && sequence * sh.frames + accFrames == done + 1
      ensures Sums(sh, fed, accumulated[..], sequence * sh.frames, accFrames)
      ensures out == if sequence == old(sequence) then None else Some(BatchSnapshot(sh, fed, old(sequence)))
      ensures old(sequence) <= sequence <= old(sequence) + 1
    {
      CountFrame(done);
      if accFrames < config.framesPerSnapshot { return None; }
      var snapshot := TakeSnapshot(done);
      out := Some(snapshot);
    }

    // The new sample takes the place of the oldest.
    method Store(x: Sample)
      requires Valid()
      modifies this`writeIndex, this`seen, this`fed, ring
      ensures fed == old(fed) + [x] && seen == |fed|
      ensures writeIndex == |fed| % sh.n && Unrolled(ring[..], writeIndex) == Latest(sh.n, fed)
    {
      RingStep(ring[..], writeIndex, fed, x);
      IndexStep(sh.n, |fed|);
      seen := seen + 1;
      ring[writeIndex] := x;
      writeIndex := (writeIndex + 1) % config.fftSize;
      fed := fed + [x];
    }

    // The counters after a stored sample, with the frame it may complete.
    method Advance() returns (snapshot: Option<Snapshot>)
      requires Built() && seen == |fed| > 0
      requires writeIndex == |fed| % sh.n && Unrolled(ring[..], writeIndex) == Latest(sh.n, fed)
      requires Counted(sh, |fed| - 1, filled, sinceFrame, FramesDone(sh, State()))
      requires accFrames < sh.frames && Sums(sh, fed, accumulated[..], sequence * sh.frames, accFrames)
      modifies this`filled, this`sinceFrame, this`accFrames, this`sequence, fftInput, accumulated
      ensures Valid() && old(sequence) <= sequence <= old(sequence) + 1
      ensures snapshot == if sequence == old(sequence) then None else Some(BatchSnapshot(sh, fed, old(sequence)))
    {
      ghost var done := FramesDone(sh, State());
      Due(sh, |fed| - 1, filled, sinceFrame, done, sequence, accFrames);
      snapshot := None;
      if filled < config.fftSize {
        filled := filled + 1;
        if filled == config.fftSize {
          snapshot := ProcessFrame(done);
        }
      } else {
        sinceFrame := sinceFrame + 1;
        if sinceFrame >= Hop(config.fftSize, config.overlapPercent) {
          sinceFrame := 0;
          snapshot := ProcessFrame(done);
        }
      }
    }

    // One turn of the loop of push_iq, as it changes the state.
    method Accept(x: Sample) returns (snapshot: Option<Snapshot>)
      requires Valid()
      modifies this`writeIndex, this`filled, this`sinceFrame, this`accFrames, this`sequence, this`seen, this`fed
      modifies ring, fftInput, accumulated
      ensures Valid() && fed == old(fed) + [x] && old(sequence) <= sequence <= old(sequence) + 1
      ensures snapshot == if sequence == old(sequence) then None else Some(BatchSnapshot(sh, fed, old(sequence)))
    {
      Due(sh, |fed|, filled, sinceFrame, FramesDone(sh, State()), sequence, accFrames);
      SumsExtend(sh, fed, [x], accumulated[..], sequence * sh.frames, accFrames);
      Store(x);
      snapshot := Advance();
    }

    // And with what it returns.
    method PushOne(x: Sample) returns (out: seq<Snapshot>)
      requires Valid()
      modifies this`writeIndex, this`filled, this`sinceFrame, this`accFrames, this`sequence, this`seen, this`fed
      modifies ring, fftInput, accumulated
      ensures Valid() && fed == old(fed) + [x]
      ensures Batch(sh, old(fed)) + out == Batch(sh, fed)
    {
      TrackedCount(sh, State(), fed);
      var snapshot := Accept(x);
      TrackedCount(sh, State(), fed);
      out := if snapshot.Some? then [snapshot.value] else [];
      BatchGrows(sh, old(fed), [x], out);
    }

    // push_iq: what was returned so far, followed by this call's snapshots, is the batch reading of all samples fed.
    method PushIq(samples: seq<Sample>) returns (out: seq<Snapshot>)
      requires Valid()
      modifies this`writeIndex, this`filled, this`sinceFrame, this`accFrames, this`sequence, this`seen, this`fed
      modifies ring, fftInput, accumulated
      ensures Valid() && fed == old(fed) + samples
      ensures Batch(sh, old(fed)) + out == Batch(sh, fed)
    {
      out := [];
      var index := 0;
      assert samples[..0] == [] && old(fed) + [] == old(fed) && Batch(sh, old(fed)) + [] == Batch(sh, old(fed));
      while index < |samples|
        invariant 0 <= index <= |samples|
        invariant Valid() && fed == old(fed) + samples[..index]
        invariant Batch(sh, old(fed)) + out == Batch(sh, fed)
      {
        var more := PushOne(samples[index]);
        assert samples[..index + 1] == samples[..index] + [samples[index]];
        assert Batch(sh, old(fed)) + (out + more) == (Batch(sh, old(fed)) + out) + more;
        out := out + more;
        index := index + 1;
      }
      assert samples[..index] == samples;
    }
  }

  // SpectrumAggregator::new
  method New(config: Config, fft: Fft) returns (r: Result<SpectrumAggregator, ConfigError>)
    ensures r.Err? <==> ConfigFault(config).Some?
    ensures r.Err? ==> r.error == ConfigFault(config).value
    ensures r.Ok? ==> fresh(r.value) && r.value.Valid() && r.value.fed == [] && r.value.config == config && r.value.fft == fft
  {
    if ConfigFault(config).Some? { return Err(ConfigFault(config).value); }
    var aggregator := new SpectrumAggregator(config, fft);
    r := Ok(aggregator);
  }

  // Feeding `a` and then `b` gives the snapshots and the state of feeding `a + b` at once.
  method PushTwice(one: SpectrumAggregator, two: SpectrumAggregator, a: seq<Sample>, b: seq<Sample>)
    returns (split: seq<Snapshot>, whole: seq<Snapshot>)
    requires one.Valid() && two.Valid() && one.sh == two.sh && one.fed == two.fed
    requires {one.ring, one.fftInput} !! {two.ring, two.fftInput} && one.accumulated != two.accumulated && one != two
    modifies one, one.ring, one.fftInput, one.accumulated, two, two.ring, two.fftInput, two.accumulated
    ensures split == whole && one.State() == two.State()
  {
    ghost var fed := one.fed;
    var first := one.PushIq(a);
    var second := one.PushIq(b);
    split := first + second;
    whole := two.PushIq(a + b);
    assert fed + a + b == fed + (a + b);
    assert Batch(one.sh, fed) + first + second == Batch(one.sh, fed) + (first + second);
    assert split == Batch(one.sh, one.fed)[|Batch(one.sh, fed)|..] == whole;
    TrackedOnce(one.sh, one.State(), two.State(), one.fed);
  }
}
