/**
 The refill loops of the IIO adapter (adapter_capture_iq, adapter_capture_power)
 and the controller's power sum over the transported bytes (aggregate_ci16_power).

 A capture sees an unbounded stream of refills: `refills(i)` is what the i-th
 buffer_refill and the checks after it meet.  A complex 16-bit sample is four bytes.
 */
module IqCapture {
  import opened Outcome
  import opened Arithmetic
  import opened Base64

  const U32 := 0x1_0000_0000
  const MAX_POWER_SAMPLES := 1_048_576

  datatype Iq = Iq(i0: byte, i1: byte, q0: byte, q1: byte)

  // `ragged` marks a buffer whose byte count is no multiple of four.
  datatype Refill =
    | Failed(rc: int)
    | Filled(samples: seq<Iq>, ragged: bool, writeRc: int, late: bool)

  datatype Fault = RefillFault(rc: int) | BadBuffer | RaggedBuffer | WriteFault(rc: int) | Timeout

  // The first check of one turn of the CAPTURE_IQ loop that fails, if any.
  function IqFault(r: Refill): Option<Fault> {
    match r
    case Failed(rc) => Some(RefillFault(rc))
    case Filled(samples, ragged, writeRc, late) =>
      if |samples| == 0 && !ragged then Some(BadBuffer)
      else if ragged then Some(RaggedBuffer)
      else if writeRc != 0 then Some(WriteFault(writeRc))
      else if late then Some(Timeout)
      else None
  }

  // The same for CAPTURE_POWER, which writes no file and reports a ragged buffer as bad.
  function PowerFault(r: Refill): Option<Fault> {
    match r
    case Failed(rc) => Some(RefillFault(rc))
    case Filled(samples, ragged, _, late) =>
      if |samples| == 0 || ragged then Some(BadBuffer)
      else if late then Some(Timeout)
      else None
  }

  function Samples(r: Refill): seq<Iq> { if r.Filled? then r.samples else [] }

  // The samples of the first k refills, in order.
  function Stream(refills: nat -> Refill, k: nat): seq<Iq> {
    if k == 0 then [] else Stream(refills, k - 1) + Samples(refills(k - 1))
  }

  // The bytes a sequence of samples occupies in a buffer or a file.
  function Flatten(s: seq<Iq>): seq<byte> {
    seq(4 * |s|, j requires 0 <= j < 4 * |s| =>
      var x := s[j / 4];
      if j % 4 == 0 then x.i0 else if j % 4 == 1 then x.i1 else if j % 4 == 2 then x.q0 else x.q1)
  }

  // chunks_exact(4)
  function Chunk(bytes: seq<byte>): seq<Iq>
    requires |bytes| % 4 == 0
  {
    seq(|bytes| / 4, k requires 0 <= k < |bytes| / 4 =>
      Iq(bytes[4 * k], bytes[4 * k + 1], bytes[4 * k + 2], bytes[4 * k + 3]))
  }

  lemma ChunkOfFlatten(s: seq<Iq>)
    ensures |Flatten(s)| % 4 == 0 && Chunk(Flatten(s)) == s
  {
  }

  ghost predicate NoIqFault(refills: nat -> Refill, k: nat) {
    forall i: nat :: i < k ==> IqFault(refills(i)).None?
  }

  ghost predicate NoPowerFault(refills: nat -> Refill, k: nat) {
    forall i: nat :: i < k ==> PowerFault(refills(i)).None?
  }

  // Every one of the first k refills brought at least a full buffer.
  ghost predicate AllFull(refills: nat -> Refill, k: nat, bufferSamples: nat) {
    forall i: nat :: i < k ==> |Samples(refills(i))| >= bufferSamples
  }

  lemma AllFullStep(refills: nat -> Refill, k: nat, bufferSamples: nat)
    ensures AllFull(refills, k + 1, bufferSamples)
            <==> AllFull(refills, k, bufferSamples) && |Samples(refills(k))| >= bufferSamples
  {
  }

  // The samples the first k refills fell short of full buffers.
  function Shortfall(refills: nat -> Refill, k: nat, bufferSamples: nat): nat {
    if k == 0 then 0
    else
      var got := |Samples(refills(k - 1))|;
      Shortfall(refills, k - 1, bufferSamples) + if got < bufferSamples then bufferSamples - got else 0
  }

  lemma ShortfallStep(refills: nat -> Refill, k: nat, bufferSamples: nat, dropped: nat)
    requires dropped == Shortfall(refills, k, bufferSamples) && refills(k).Filled?
    ensures Shortfall(refills, k + 1, bufferSamples)
         == if |refills(k).samples| < bufferSamples then dropped + (bufferSamples - |refills(k).samples|) else dropped
  {
  }

  lemma {:induction false} NoShortfall(refills: nat -> Refill, k: nat, bufferSamples: nat)
    ensures Shortfall(refills, k, bufferSamples) == 0 <==> AllFull(refills, k, bufferSamples)
  {
    if k > 0 {
      NoShortfall(refills, k - 1, bufferSamples);
      AllFullStep(refills, k - 1, bufferSamples);
    }
  }

  // The stream brings `count` samples before its first fault.
  ghost predicate Brings(refills: nat -> Refill, count: nat) {
    exists k: nat :: NoIqFault(refills, k) && count <= |Stream(refills, k)|
  }

  lemma FaultEndsStream(refills: nat -> Refill, count: nat, used: nat)
    requires IqFault(refills(used)).Some? && |Stream(refills, used)| < count
    ensures !Brings(refills, count)
  {
    if Brings(refills, count) {
      var k: nat :| NoIqFault(refills, k) && count <= |Stream(refills, k)|;
      if k <= used { StreamGrows(refills, k, used); }
    }
  }

  datatype IqRun =
    | Captured(file: seq<Iq>, dropped: nat, shortRefill: bool, used: nat)
    | Stopped(fault: Fault, used: nat)

  // adapter_capture_iq from the refill loop on.  It ends for every refill stream; on success the
  // file holds the first `count` samples of the stream, and `dropped` is zero exactly when no
  // refill was short.  On failure the file is removed and the cause is the first faulty refill.
  method CaptureIq(refills: nat -> Refill, count: nat, bufferSamples: nat) returns (r: IqRun)
    ensures NoIqFault(refills, r.used)
    ensures r.Captured? ==> count <= |Stream(refills, r.used)| && r.file == Stream(refills, r.used)[..count]
    ensures r.Captured? && r.used > 0 ==> |Stream(refills, r.used - 1)| < count
    ensures r.Captured? ==> r.dropped == Shortfall(refills, r.used, bufferSamples)
    ensures r.Captured? ==> (r.dropped == 0 <==> AllFull(refills, r.used, bufferSamples))
    ensures r.Captured? <==> Brings(refills, count)
    ensures r.Captured? ==> r.shortRefill == (r.dropped != 0)
    ensures r.Stopped? ==> IqFault(refills(r.used)) == Some(r.fault) && |Stream(refills, r.used)| < count
  {
    var remaining: nat, dropped: nat, shortRefill, used: nat := count, 0, false, 0;
    var file: seq<Iq> := [];
    while remaining > 0
      invariant |file| + remaining == count
      invariant NoIqFault(refills, used)
      invariant remaining > 0 ==> file == Stream(refills, used)
      invariant remaining == 0 ==> file <= Stream(refills, used)
      invariant used > 0 ==> |Stream(refills, used - 1)| < count
      invariant dropped == Shortfall(refills, used, bufferSamples)
      invariant shortRefill == (dropped != 0)
      decreases remaining
    {
      var refill := refills(used);
      if IqFault(refill).Some? { FaultEndsStream(refills, count, used); }
      if refill.Failed? { return Stopped(RefillFault(refill.rc), used); }
      var available := |refill.samples|;
      if available == 0 && !refill.ragged { return Stopped(BadBuffer, used); }
      if refill.ragged { return Stopped(RaggedBuffer, used); }
      ShortfallStep(refills, used, bufferSamples, dropped);
      if available < bufferSamples {
        dropped := dropped + (bufferSamples - available);
        shortRefill := true;
      }
      var toWrite := if available > remaining then remaining else available;
      if refill.writeRc != 0 { return Stopped(WriteFault(refill.writeRc), used); }
      var part := refill.samples[..toWrite];
      assert toWrite == available ==> part == refill.samples;
      assert file + part <= file + refill.samples == Stream(refills, used + 1);
      file := file + part;
      remaining := remaining - toWrite;
      if refill.late { return Stopped(Timeout, used); }
      used := used + 1;
    }
    NoShortfall(refills, used, bufferSamples);
    r := Captured(file, dropped, shortRefill, used);
  }

  // ----- power of interleaved 16-bit samples, little-endian -----

  // Two's complement of sixteen bits, from the low and the high byte.
  function Signed(low: nat, high: nat): int {
    var u := low + 256 * high;
    if u >= 32768 then u - 65536 else u
  }

  function I16(low: byte, high: byte): (v: int)
    ensures -32768 <= v <= 32767
  {
    Signed(low as nat, high as nat)
  }

  // A 16-bit number modulo 2^16.
  function Twos(n: int): nat
    requires -32768 <= n <= 32767
  {
    if n < 0 then n + 65536 else n
  }

  // Its two bytes as they lie in memory, the low one first.
  predicate Holds(low: byte, high: byte, n: int) {
    -32768 <= n <= 32767 && low as nat == Twos(n) % 256 && high as nat == Twos(n) / 256
  }

  lemma SignedReadsBack(low: nat, high: nat, n: int)
    requires low < 256 && high < 256
    ensures (-32768 <= n <= 32767 && low == Twos(n) % 256 && high == Twos(n) / 256) <==> Signed(low, high) == n
  {
    DivUnique(low + 256 * high, 256, high, low);
  }

  // I16 reads back the number its bytes hold, and any two bytes hold the number it reads.
  lemma I16ReadsBack(low: byte, high: byte, n: int)
    ensures Holds(low, high, n) <==> I16(low, high) == n
  {
    SignedReadsBack(low as nat, high as nat, n);
  }

  // i^2 + q^2 of one sample.
  function Energy(x: Iq): int {
    var i, q := I16(x.i0, x.i1), I16(x.q0, x.q1);
    i * i + q * q
  }

  predicate Clipped(x: Iq) {
    var i, q := I16(x.i0, x.i1), I16(x.q0, x.q1);
    i <= -2048 || i >= 2047 || q <= -2048 || q >= 2047
  }

  // The energy and the clip test of a sample are those of the two numbers its bytes hold.
  lemma SampleReads(x: Iq, i: int, q: int)
    requires Holds(x.i0, x.i1, i) && Holds(x.q0, x.q1, q)
    ensures Energy(x) == i * i + q * q
    ensures Clipped(x) <==> i <= -2048 || i >= 2047 || q <= -2048 || q >= 2047
  {
    I16ReadsBack(x.i0, x.i1, i);
    I16ReadsBack(x.q0, x.q1, q);
  }

  // The exact power and the number of clipped samples of a sequence.
  function PowerSum(s: seq<Iq>): int {
    if |s| == 0 then 0 else PowerSum(s[..|s| - 1]) + Energy(s[|s| - 1])
  }

  function ClipCount(s: seq<Iq>): (c: int)
    ensures 0 <= c <= |s|
  {
    if |s| == 0 then 0 else ClipCount(s[..|s| - 1]) + (if Clipped(s[|s| - 1]) then 1 else 0)
  }

  lemma SumStep(s: seq<Iq>, x: Iq)
    ensures PowerSum(s + [x]) == PowerSum(s) + Energy(x)
    ensures ClipCount(s + [x]) == ClipCount(s) + (if Clipped(x) then 1 else 0)
  {
  }

  lemma SquareBound(v: int)
    requires -32768 <= v <= 32767
    ensures 0 <= v * v <= 0x4000_0000
  {
    var a: nat := if v >= 0 then v else -v;
    MulLe(a, 32768, a);
    MulLe(a, 32768, 32768);
    assert v * v == a * a;
  }

  lemma EnergyBound(x: Iq)
    ensures 0 <= Energy(x) <= 0x8000_0000
  {
    SquareBound(I16(x.i0, x.i1));
    SquareBound(I16(x.q0, x.q1));
  }

  // At most 2^31 a sample, so at most 2^51 for the largest CAPTURE_POWER request.
  lemma {:induction false} PowerSumBound(s: seq<Iq>)
    ensures 0 <= PowerSum(s) <= |s| * 0x8000_0000
  {
    if |s| > 0 {
      PowerSumBound(s[..|s| - 1]);
      EnergyBound(s[|s| - 1]);
    }
  }

  lemma {:induction false} PowerSumMonotone(s: seq<Iq>, t: seq<Iq>)
    requires s <= t
    ensures PowerSum(s) <= PowerSum(t)
  {
    if s != t {
      assert s <= t[..|t| - 1];
      PowerSumMonotone(s, t[..|t| - 1]);
      EnergyBound(t[|t| - 1]);
    }
  }

  lemma {:induction false} StreamGrows(refills: nat -> Refill, k: nat, m: nat)
    requires k <= m
    ensures Stream(refills, k) <= Stream(refills, m)
  {
    if k < m { StreamGrows(refills, k, m - 1); }
  }

  // The inner loop of adapter_capture_power over one refill; `taken` is what was summed before.
  method AddSamples(samples: seq<Iq>, power0: nat, clips0: nat, ghost taken: seq<Iq>)
    returns (power: nat, clips: nat)
    requires |taken| + |samples| <= MAX_POWER_SAMPLES
    requires power0 == PowerSum(taken) && clips0 == ClipCount(taken)
    ensures power == PowerSum(taken + samples) && clips == ClipCount(taken + samples)
  {
    power, clips := power0, clips0;
    var index := 0;
    ghost var sofar := taken;
    while index < |samples|
      invariant 0 <= index <= |samples|
      invariant sofar == taken + samples[..index]
      invariant power == PowerSum(sofar) && clips == ClipCount(sofar)
    {
      power, clips := AddSample(samples[index], power, clips, sofar);
      sofar := sofar + [samples[index]];
      index := index + 1;
    }
    assert samples[..index] == samples;
  }

  // i^2 + q^2 and the clip test of one sample, as both programs compute them.
  method Measure(x: Iq) returns (energy: nat, clipped: bool)
    ensures energy == Energy(x) <= 0x8000_0000 && clipped == Clipped(x)
  {
    EnergyBound(x);
    var i, q := I16(x.i0, x.i1), I16(x.q0, x.q1);
    energy, clipped := i * i + q * q, i <= -2048 || i >= 2047 || q <= -2048 || q >= 2047;
  }

  // The body of that loop, with the wrap-around of 64-bit addition written out.
  method AddSample(x: Iq, power0: nat, clips0: nat, ghost taken: seq<Iq>) returns (power: nat, clips: nat)
    requires |taken| < MAX_POWER_SAMPLES
    requires power0 == PowerSum(taken) && clips0 == ClipCount(taken)
    ensures power == PowerSum(taken + [x]) && clips == ClipCount(taken + [x])
  {
    var energy, clipped := Measure(x);
    SumStep(taken, x);
    PowerSumBound(taken + [x]);
    power := (power0 + energy) % TWO_64;
    clips := if clipped then (clips0 + 1) % TWO_64 else clips0;
  }

  // The summary's three 32-bit limbs carry the 64-bit sum.
  method Limbs(power: nat) returns (lo: nat, mid: nat, hi: nat)
    requires power < TWO_64
    ensures lo < U32 && mid < U32 && hi == 0 && lo + mid * U32 + hi * TWO_64 == power
  {
    lo, mid, hi := power % U32, power / U32, 0;
  }

  // `taken` is what the first `used` refills brought, up to `count` samples.
  ghost predicate Consumed(refills: nat -> Refill, count: nat, remaining: nat, used: nat, taken: seq<Iq>) {
    && |taken| + remaining == count
    && (if remaining > 0 then taken == Stream(refills, used) else taken <= Stream(refills, used))
  }

  lemma ConsumeRefill(refills: nat -> Refill, count: nat, remaining: nat, used: nat, taken: seq<Iq>, take: nat)
    requires Consumed(refills, count, remaining, used, taken) && remaining > 0 && refills(used).Filled?
    requires take == if |refills(used).samples| < remaining then |refills(used).samples| else remaining
    ensures Consumed(refills, count, remaining - take, used + 1, taken + refills(used).samples[..take])
  {
    var samples := refills(used).samples;
    assert Stream(refills, used + 1) == taken + samples;
    assert take == |samples| ==> samples[..take] == samples;
    assert taken + samples[..take] <= taken + samples;
  }

  datatype PowerRun =
    | Powered(lo: nat, mid: nat, hi: nat, clips: nat, dropped: nat, used: nat)
    | Broken(fault: Fault, used: nat)

  // The same for CAPTURE_POWER, whose faults are its own.
  ghost predicate BringsPower(refills: nat -> Refill, count: nat) {
    exists k: nat :: NoPowerFault(refills, k) && count <= |Stream(refills, k)|
  }

  lemma FaultEndsPower(refills: nat -> Refill, count: nat, used: nat)
    requires PowerFault(refills(used)).Some? && |Stream(refills, used)| < count
    ensures !BringsPower(refills, count)
  {
    if BringsPower(refills, count) {
      var k: nat :| NoPowerFault(refills, k) && count <= |Stream(refills, k)|;
      if k <= used { StreamGrows(refills, k, used); }
    }
  }

  lemma AllTaken(refills: nat -> Refill, count: nat, used: nat, taken: seq<Iq>)
    requires Consumed(refills, count, 0, used, taken)
    ensures count <= |Stream(refills, used)| && taken == Stream(refills, used)[..count]
  {
  }

  // The refill loop between two turns.
  ghost predicate Advanced(refills: nat -> Refill, count: nat, bufferSamples: nat, remaining: nat, used: nat, taken: seq<Iq>,
                           dropped: nat) {
    && NoPowerFault(refills, used) && Consumed(refills, count, remaining, used, taken)
    && dropped == Shortfall(refills, used, bufferSamples)
  }

  lemma Advance(refills: nat -> Refill, count: nat, bufferSamples: nat, remaining: nat, used: nat, taken: seq<Iq>,
                dropped: nat, take: nat, dropped': nat)
    requires Advanced(refills, count, bufferSamples, remaining, used, taken, dropped) && remaining > 0
    requires PowerFault(refills(used)).None?
    requires take == if |refills(used).samples| < remaining then |refills(used).samples| else remaining
    requires dropped' == if |refills(used).samples| < bufferSamples then dropped + (bufferSamples - |refills(used).samples|) else dropped
    ensures Advanced(refills, count, bufferSamples, remaining - take, used + 1, taken + refills(used).samples[..take], dropped')
  {
    ConsumeRefill(refills, count, remaining, used, taken, take);
    ShortfallStep(refills, used, bufferSamples, dropped);
  }

  // The sum and the clip count of the first `count` samples, before the sum is cut into limbs.
  method PowerLoop(refills: nat -> Refill, count: nat, bufferSamples: nat)
    returns (fault: Option<Fault>, power: nat, clips: nat, dropped: nat, used: nat)
    requires 0 < count <= MAX_POWER_SAMPLES
    ensures NoPowerFault(refills, used)
    ensures fault.None? ==> count <= |Stream(refills, used)| && power == PowerSum(Stream(refills, used)[..count])
    ensures fault.None? ==> clips == ClipCount(Stream(refills, used)[..count]) && dropped == Shortfall(refills, used, bufferSamples)
    ensures fault.Some? ==> PowerFault(refills(used)) == fault && |Stream(refills, used)| < count
  {
    var remaining: nat := count;
    fault, power, clips, dropped, used := None, 0, 0, 0, 0;
    ghost var taken: seq<Iq> := [];
    while remaining > 0
      invariant Advanced(refills, count, bufferSamples, remaining, used, taken, dropped)
      invariant power == PowerSum(taken) && clips == ClipCount(taken)
      decreases remaining
    {
      var refill := refills(used);
      if refill.Failed? { return Some(RefillFault(refill.rc)), power, clips, dropped, used; }
      var available := |refill.samples|;
      if available == 0 || refill.ragged { return Some(BadBuffer), power, clips, dropped, used; }
      ghost var before := dropped;
      if available < bufferSamples { dropped := dropped + (bufferSamples - available); }
      var take := if available < remaining then available else remaining;
      var part := refill.samples[..take];
      power, clips := AddSamples(part, power, clips, taken);
      if refill.late { return Some(Timeout), power, clips, dropped, used; }
      Advance(refills, count, bufferSamples, remaining, used, taken, before, take, dropped);
      taken := taken + part;
      remaining := remaining - take;
      used := used + 1;
    }
    AllTaken(refills, count, used, taken);
  }

  // adapter_capture_power: the three limbs recombine to the exact power of the first `count`
  // samples of the stream; no addition overflowed.
  method CapturePower(refills: nat -> Refill, count: nat, bufferSamples: nat) returns (r: PowerRun)
    requires 0 < count <= MAX_POWER_SAMPLES
    ensures NoPowerFault(refills, r.used)
    ensures r.Powered? ==> count <= |Stream(refills, r.used)|
    ensures r.Powered? ==> r.lo < U32 && r.mid < U32 && r.hi == 0
    ensures r.Powered? ==> r.lo + r.mid * U32 + r.hi * TWO_64 == PowerSum(Stream(refills, r.used)[..count])
    ensures r.Powered? ==> r.clips == ClipCount(Stream(refills, r.used)[..count])
    ensures r.Powered? ==> r.dropped == Shortfall(refills, r.used, bufferSamples)
    ensures r.Powered? ==> (r.dropped == 0 <==> AllFull(refills, r.used, bufferSamples))
    ensures r.Powered? <==> BringsPower(refills, count)
    ensures r.Broken? ==> PowerFault(refills(r.used)) == Some(r.fault) && |Stream(refills, r.used)| < count
  {
    var fault, power, clips, dropped, used := PowerLoop(refills, count, bufferSamples);
    if fault.Some? {
      FaultEndsPower(refills, count, used);
      return Broken(fault.value, used);
    }
    NoShortfall(refills, used, bufferSamples);
    PowerSumBound(Stream(refills, used)[..count]);
    var lo, mid, hi := Limbs(power);
    r := Powered(lo, mid, hi, clips, dropped, used);
  }

  datatype AggregateError = ShapeError | PowerOverflow

  // The sum and the clip count of the samples so far, before 64 bits run out.
  ghost predicate Summed(sofar: seq<Iq>, power: nat, clips: nat) {
    power == PowerSum(sofar) < TWO_64 && clips == ClipCount(sofar)
  }

  // One turn of its loop; None when the sum no longer fits.
  method SumOne(x: Iq, power: nat, clips: nat, ghost sofar: seq<Iq>) returns (r: Option<(nat, nat)>)
    requires Summed(sofar, power, clips)
    ensures r.Some? ==> Summed(sofar + [x], r.value.0, r.value.1)
    ensures r.None? ==> PowerSum(sofar + [x]) >= TWO_64
  {
    var energy, clipped := Measure(x);
    SumStep(sofar, x);
    if power + energy >= TWO_64 { return None; }
    r := Some((power + energy, if clipped then clips + 1 else clips));
  }

  // aggregate_ci16_power: the error cases are exactly a byte count that does not match and a sum
  // that does not fit 64 bits, and the second needs more than 2^32 samples.
  method AggregateCi16(bytes: seq<byte>, count: nat) returns (r: Result<(nat, nat), AggregateError>)
    ensures r == Err(ShapeError) <==> 4 * count >= TWO_64 || |bytes| != 4 * count
    ensures r == Err(PowerOverflow) ==> |bytes| == 4 * count && PowerSum(Chunk(bytes)) >= TWO_64 && count > U32
    ensures r.Ok? ==> r.value == (PowerSum(Chunk(bytes)), ClipCount(Chunk(bytes))) && r.value.0 < TWO_64
  {
    if 4 * count >= TWO_64 || |bytes| != 4 * count { return Err(ShapeError); }
    var power: nat, clips: nat, k := 0, 0, 0;
    ghost var all := Chunk(bytes);
    while k < count
      invariant 0 <= k <= count && Summed(all[..k], power, clips)
    {
      var x := Iq(bytes[4 * k], bytes[4 * k + 1], bytes[4 * k + 2], bytes[4 * k + 3]);
      assert all[..k] + [x] == all[..k + 1];
      var sum := SumOne(x, power, clips, all[..k]);
      if sum.None? {
        PowerSumMonotone(all[..k + 1], all);
        PowerSumBound(all);
        return Err(PowerOverflow);
      }
      power, clips := sum.value.0, sum.value.1;
      k := k + 1;
    }
    assert all[..k] == all;
    r := Ok((power, clips));
  }

  // On one refill stream, the CAPTURE_POWER summary and the controller's summary of the inline
  // capture it decodes are the same numbers, however many refills each of them needed.
  lemma BackendsAgree(refills: nat -> Refill, count: nat, usedIq: nat, usedPower: nat)
    requires 0 < count <= |Stream(refills, usedIq)| && count <= |Stream(refills, usedPower)|
    ensures var file := Flatten(Stream(refills, usedIq)[..count]);
            && Decode(Encode(file)) == Some(file) && |file| % 4 == 0
            && PowerSum(Chunk(file)) == PowerSum(Stream(refills, usedPower)[..count])
            && ClipCount(Chunk(file)) == ClipCount(Stream(refills, usedPower)[..count])
  {
    var kept := Stream(refills, usedIq)[..count];
    RoundTrip(Flatten(kept));
    ChunkOfFlatten(kept);
    if usedIq <= usedPower {
      StreamGrows(refills, usedIq, usedPower);
    } else {
      StreamGrows(refills, usedPower, usedIq);
    }
    assert kept == Stream(refills, usedPower)[..count];
  }
}
