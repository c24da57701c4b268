/**
 merge_candidates of software_sweep.rs: the candidate bands of all sweep points, sorted
 by their start and merged where the gap between them is small enough.
 */
module BandMerge {
  import opened Arithmetic
  import opened Sorting

  const I64_MAX: int := 0x7FFF_FFFF_FFFF_FFFF
  type Hz = n: int | -0x8000_0000_0000_0000 <= n <= 0x7FFF_FFFF_FFFF_FFFF

  datatype Band = Band(startHz: Hz, stopHz: Hz, peakHz: Hz, peakDbfs: real, powerDbfs: real, bins: nat, containsDc: bool)

  function SatAdd(a: Hz, b: Hz): Hz {
    if a + b > I64_MAX then I64_MAX else if a + b < -I64_MAX - 1 then -I64_MAX - 1 else a + b
  }

  function Gap(sampleRateHz: Hz, fftSize: nat, gapBins: nat): (gap: Hz)
    requires fftSize > 0 && sampleRateHz >= 0
    ensures gap >= 0
  {
    var bin := if sampleRateHz / fftSize < 1 then 1 else sampleRateHz / fftSize;
    if bin * gapBins > I64_MAX then I64_MAX else bin * gapBins
  }

  // One bin is the whole part of the sample rate over the FFT size, but at least 1 Hz; a gap is so many bins, or
  // the largest frequency when that is less.
  lemma GapIsBins(sampleRateHz: Hz, fftSize: nat, gapBins: nat)
    requires fftSize > 0 && sampleRateHz >= 0
    ensures var bin := Gap(sampleRateHz, fftSize, 1);
            && (sampleRateHz < fftSize ==> bin == 1)
            && (sampleRateHz >= fftSize ==> bin * fftSize <= sampleRateHz < (bin + 1) * fftSize)
            && (gapBins * bin <= I64_MAX ==> Gap(sampleRateHz, fftSize, gapBins) == gapBins * bin)
            && (gapBins * bin >= I64_MAX ==> Gap(sampleRateHz, fftSize, gapBins) == I64_MAX)
  {
    var q := sampleRateHz / fftSize;
    assert q * fftSize <= sampleRateHz < (q + 1) * fftSize;
    if q == 0 { assert sampleRateHz < fftSize; }
    if sampleRateHz >= fftSize { assert q >= 1; }
    assert q <= sampleRateHz by { MulLe(1, fftSize, q); }
  }

  predicate ByStart(a: Band, b: Band) { a.startHz <= b.startHz }

  // ----- merging -----

  // `previous` after it took in `candidate`.
  function Absorb(previous: Band, candidate: Band): Band {
    var higher := candidate.peakDbfs > previous.peakDbfs;
    Band(if candidate.startHz < previous.startHz then candidate.startHz else previous.startHz,
         if candidate.stopHz > previous.stopHz then candidate.stopHz else previous.stopHz,
         if higher then candidate.peakHz else previous.peakHz,
         if higher then candidate.peakDbfs else previous.peakDbfs,
         if candidate.powerDbfs > previous.powerDbfs then candidate.powerDbfs else previous.powerDbfs,
         if candidate.bins > previous.bins then candidate.bins else previous.bins,
         previous.containsDc || candidate.containsDc)
  }

  predicate Joins(previous: Band, candidate: Band, gap: Hz) { candidate.startHz <= SatAdd(previous.stopHz, gap) }

  // The merged bands of `rest`, while `current` is still open.
  function Fold(current: Band, rest: seq<Band>, gap: Hz): (r: seq<Band>)
    ensures |r| > 0
    decreases |rest|
  {
    if rest == [] then [current]
    else if Joins(current, rest[0], gap) then Fold(Absorb(current, rest[0]), rest[1..], gap)
    else [current] + Fold(rest[0], rest[1..], gap)
  }

  function Merge(bands: seq<Band>, gap: Hz): seq<Band> {
    var s := Sort(bands, ByStart);
    if s == [] then [] else Fold(s[0], s[1..], gap)
  }

  // merge_candidates
  method MergeCandidates(points: seq<seq<Band>>, sampleRateHz: Hz, fftSize: nat, gapBins: nat) returns (merged: seq<Band>)
    requires fftSize > 0 && sampleRateHz >= 0
    ensures merged == Merge(Concat(points), Gap(sampleRateHz, fftSize, gapBins))
  {
    var gap := Gap(sampleRateHz, fftSize, gapBins);
    var all: seq<Band> := [];
    var i := 0;
    while i < |points|
      invariant 0 <= i <= |points|
      invariant all == Concat(points[..i])
    {
      assert points[..i + 1][..i] == points[..i];
      all := all + points[i];
      i := i + 1;
    }
    assert points[..i] == points;
    var sorted := Sort(all, ByStart);
    merged := [];
    i := 0;
    ghost var whole := Merge(all, gap);
    while i < |sorted|
      invariant 0 <= i <= |sorted|
      invariant i == 0 ==> merged == []
      invariant i > 0 ==> merged != [] && whole == Closed(merged) + Fold(Open(merged), sorted[i..], gap)
    {
      var candidate := sorted[i];
      assert sorted[i..][0] == candidate && sorted[i..][1..] == sorted[i + 1..];
      if merged != [] && candidate.startHz <= SatAdd(Open(merged).stopHz, gap) {
        merged := merged[|merged| - 1 := Absorb(Open(merged), candidate)];
      } else {
        ghost var before := merged;
        merged := merged + [candidate];
        assert Closed(merged) == before;
        if i > 0 {
          assert before == Closed(before) + [Open(before)];
        }
      }
      i := i + 1;
    }
    assert i > 0 ==> sorted[i..] == [] && merged == Closed(merged) + [Open(merged)];
  }

  function Open(merged: seq<Band>): Band
    requires merged != []
  {
    merged[|merged| - 1]
  }

  function Closed(merged: seq<Band>): seq<Band>
    requires merged != []
  {
    merged[..|merged| - 1]
  }

  function Concat(parts: seq<seq<Band>>): seq<Band> {
    if parts == [] then [] else Concat(parts[..|parts| - 1]) + parts[|parts| - 1]
  }

  // ----- what merging means -----

  predicate Contains(outer: Band, inner: Band) { outer.startHz <= inner.startHz && inner.stopHz <= outer.stopHz }

  ghost predicate Proper(bands: seq<Band>) { forall i :: 0 <= i < |bands| ==> bands[i].startHz <= bands[i].stopHz }

  // `own` lies inside `b`, and every part of `b` comes from a band of `own`.
  ghost predicate Covers(b: Band, own: seq<Band>) {
    && (forall x :: x in own ==> Contains(b, x))
    && (exists x :: x in own && x.startHz == b.startHz)
    && (exists x :: x in own && x.stopHz == b.stopHz)
  }

  ghost predicate Peaks(b: Band, own: seq<Band>) {
    && (forall x :: x in own ==> x.peakDbfs <= b.peakDbfs && x.powerDbfs <= b.powerDbfs && x.bins <= b.bins)
    && (exists x :: x in own && x.peakDbfs == b.peakDbfs && x.peakHz == b.peakHz)
    && (exists x :: x in own && x.powerDbfs == b.powerDbfs)
    && (exists x :: x in own && x.bins == b.bins)
    && (b.containsDc <==> exists x :: x in own && x.containsDc)
  }

  // Some band of `own` starts before x and ends within the gap before it, or later.
  ghost predicate FollowsOne(x: Band, own: seq<Band>, gap: Hz) {
    exists y :: y in own && y.startHz < x.startHz <= y.stopHz + gap
  }

  // Every band of `own` but the leftmost follows another one.
  ghost predicate Linked(b: Band, own: seq<Band>, gap: Hz) {
    forall x {:trigger FollowsOne(x, own, gap)} :: x in own && x.startHz != b.startHz ==> FollowsOne(x, own, gap)
  }

  ghost predicate Separated(m: seq<Band>, gap: Hz) {
    forall i, j :: 0 <= i < j < |m| ==> m[i].stopHz + gap < m[j].startHz
  }

  // Saturation does not change who joins: no start lies beyond the largest number.
  lemma JoinsExactly(previous: Band, candidate: Band, gap: Hz)
    requires gap >= 0
    ensures Joins(previous, candidate, gap) <==> candidate.startHz <= previous.stopHz + gap
  {
  }

  lemma CoversOne(b: Band, gap: Hz)
    ensures MergedFrom(b, [b], gap)
  {
  }

  lemma AbsorbCovers(b: Band, own: seq<Band>, c: Band)
    requires Covers(b, own) && b.startHz <= c.startHz
    ensures Covers(Absorb(b, c), own + [c])
  {
  }

  lemma AbsorbPeaks(b: Band, own: seq<Band>, c: Band)
    requires Peaks(b, own)
    ensures Peaks(Absorb(b, c), own + [c])
  {
  }

  lemma AbsorbLinked(b: Band, own: seq<Band>, c: Band, gap: Hz)
    requires Covers(b, own) && Linked(b, own, gap) && gap >= 0 && Joins(b, c, gap)
    requires forall x :: x in own ==> x.startHz <= c.startHz
    ensures Linked(Absorb(b, c), own + [c], gap)
  {
    var b', all := Absorb(b, c), own + [c];
    var first :| first in own && first.startHz == b.startHz;
    assert b'.startHz == b.startHz;
    forall x | x in all && x.startHz != b'.startHz
      ensures FollowsOne(x, all, gap)
    {
      if w :| w in own && w.startHz == x.startHz {
        assert FollowsOne(w, own, gap);
        var y :| y in own && y.startHz < w.startHz <= y.stopHz + gap;
        assert y in all;
      } else {
        assert x == c;
        var y :| y in own && y.stopHz == b.stopHz;
        assert y in all && y.startHz < x.startHz;
      }
    }
  }

  ghost predicate NoEarlier(m: seq<Band>, hz: int) { forall k :: 0 <= k < |m| ==> hz <= m[k].startHz }

  ghost predicate InSome(x: Band, groups: seq<seq<Band>>) { exists k :: 0 <= k < |groups| && x in groups[k] }

  ghost predicate MergedFrom(b: Band, own: seq<Band>, gap: Hz) { Covers(b, own) && Peaks(b, own) && Linked(b, own, gap) }

  // What the fold has made of the bands so far.
  ghost predicate Grouped(m: seq<Band>, groups: seq<seq<Band>>, gap: Hz) {
    && |m| == |groups|
    && (forall k :: 0 <= k < |m| ==> MergedFrom(m[k], groups[k], gap))
    && Separated(m, gap)
  }

  // The bands still to come are sorted and start no earlier than `own`.
  ghost predicate Queued(own: seq<Band>, rest: seq<Band>) {
    Sorted(rest, ByStart) && forall x, i :: x in own && 0 <= i < |rest| ==> x.startHz <= rest[i].startHz
  }

  lemma QueuedStep(own: seq<Band>, c: Band, tail: seq<Band>, rest: seq<Band>)
    requires rest == [c] + tail && Queued(own, rest)
    ensures Queued(own + [c], tail) && Queued([c], tail) && forall x :: x in own ==> x.startHz <= c.startHz
  {
    assert rest[0] == c && forall i :: 0 <= i < |tail| ==> rest[i + 1] == tail[i];
  }

  lemma {:induction false} FoldGroups(current: Band, own: seq<Band>, rest: seq<Band>, gap: Hz)
    returns (groups: seq<seq<Band>>)
    requires gap >= 0 && Queued(own, rest) && MergedFrom(current, own, gap)
    ensures Grouped(Fold(current, rest, gap), groups, gap)
    ensures NoEarlier(Fold(current, rest, gap), current.startHz)
    ensures forall x {:trigger InSome(x, groups)} :: InSome(x, groups) <==> x in own || x in rest
    decreases |rest|
  {
    if rest == [] {
      groups := [own];
      assert forall x :: InSome(x, groups) <==> x in groups[0];
    } else {
      var c, tail := rest[0], rest[1..];
      JoinsExactly(current, c, gap);
      QueuedStep(own, c, tail, rest);
      if Joins(current, c, gap) {
        AbsorbKeeps(current, own, c, gap);
        groups := FoldGroups(Absorb(current, c), own + [c], tail, gap);
        SameMembers(own, [c], tail, rest);
      } else {
        CoversOne(c, gap);
        StartsBefore(current, own, c);
        var more := FoldGroups(c, [c], tail, gap);
        groups := [own] + more;
        NewGroup(current, own, Fold(c, tail, gap), more, c, gap);
        MembersOf(own, more, c, tail, rest);
      }
    }
  }

  lemma StartsBefore(b: Band, own: seq<Band>, c: Band)
    requires Covers(b, own) && forall x :: x in own ==> x.startHz <= c.startHz
    ensures b.startHz <= c.startHz
  {
  }

  lemma MembersOf(own: seq<Band>, more: seq<seq<Band>>, c: Band, tail: seq<Band>, rest: seq<Band>)
    requires rest == [c] + tail
    requires forall x {:trigger InSome(x, more)} :: InSome(x, more) <==> x in [c] || x in tail
    ensures forall x {:trigger InSome(x, [own] + more)} :: InSome(x, [own] + more) <==> x in own || x in rest
  {
    forall x ensures InSome(x, [own] + more) <==> x in own || x in rest {
      OneMore(x, own, more);
    }
  }

  lemma SameMembers(own: seq<Band>, c: seq<Band>, tail: seq<Band>, rest: seq<Band>)
    requires rest == c + tail
    ensures forall x :: x in own + c || x in tail <==> x in own || x in rest
    ensures forall x :: x in rest <==> x in c || x in tail
  {
  }

  lemma OneMore(x: Band, own: seq<Band>, more: seq<seq<Band>>)
    ensures InSome(x, [own] + more) <==> x in own || InSome(x, more)
  {
    var groups := [own] + more;
    if x in own { assert x in groups[0]; }
    if InSome(x, more) {
      var k :| 0 <= k < |more| && x in more[k];
      assert x in groups[k + 1];
    }
    if InSome(x, groups) && x !in own {
      var k :| 0 <= k < |groups| && x in groups[k];
      assert x in more[k - 1];
    }
  }

  lemma AbsorbKeeps(b: Band, own: seq<Band>, c: Band, gap: Hz)
    requires MergedFrom(b, own, gap) && gap >= 0 && Joins(b, c, gap)
    requires forall x :: x in own ==> x.startHz <= c.startHz
    ensures MergedFrom(Absorb(b, c), own + [c], gap) && Absorb(b, c).startHz == b.startHz
  {
    var first :| first in own && first.startHz == b.startHz;
    AbsorbCovers(b, own, c);
    AbsorbPeaks(b, own, c);
    AbsorbLinked(b, own, c, gap);
  }

  lemma NewGroup(current: Band, own: seq<Band>, m: seq<Band>, groups: seq<seq<Band>>, c: Band, gap: Hz)
    requires MergedFrom(current, own, gap) && Grouped(m, groups, gap) && current.stopHz + gap < c.startHz
    requires NoEarlier(m, c.startHz) && current.startHz <= c.startHz
    ensures Grouped([current] + m, [own] + groups, gap) && NoEarlier([current] + m, current.startHz)
  {
  }

  // Each input lies in at most one of the separated outputs.
  lemma ContainedOnce(m: seq<Band>, gap: Hz, x: Band, k: nat, l: nat)
    requires Separated(m, gap) && gap >= 0 && x.startHz <= x.stopHz
    requires k < |m| && l < |m| && Contains(m[k], x) && Contains(m[l], x)
    ensures k == l
  {
  }

  // The inputs inside an output.
  ghost function Inside(b: Band, bands: seq<Band>): seq<Band> {
    if bands == [] then [] else (if Contains(b, bands[0]) then [bands[0]] else []) + Inside(b, bands[1..])
  }

  lemma {:induction false} InsideMembers(b: Band, bands: seq<Band>, x: Band)
    ensures x in Inside(b, bands) <==> x in bands && Contains(b, x)
  {
    if bands != [] {
      InsideMembers(b, bands[1..], x);
      assert bands == [bands[0]] + bands[1..];
    }
  }

  lemma MergedFromMembers(b: Band, own: seq<Band>, own': seq<Band>, gap: Hz)
    requires MergedFrom(b, own, gap) && forall x :: x in own <==> x in own'
    ensures MergedFrom(b, own', gap)
  {
    forall x | x in own' && x.startHz != b.startHz ensures FollowsOne(x, own', gap) {
      assert FollowsOne(x, own, gap);
    }
  }

  lemma SortMembers(bands: seq<Band>)
    ensures forall x :: x in Sort(bands, ByStart) <==> x in bands
  {
    SortPermutes(bands, ByStart);
    forall x ensures x in Sort(bands, ByStart) <==> x in bands {
      assert x in multiset(Sort(bands, ByStart)) <==> x in multiset(bands);
    }
  }

  lemma MergeGroups(bands: seq<Band>, gap: Hz) returns (groups: seq<seq<Band>>)
    requires gap >= 0
    ensures Grouped(Merge(bands, gap), groups, gap)
    ensures forall x {:trigger InSome(x, groups)} :: InSome(x, groups) <==> x in bands
  {
    var s := Sort(bands, ByStart);
    SortSorts(bands, ByStart);
    SortMembers(bands);
    if s == [] {
      groups := [];
    } else {
      CoversOne(s[0], gap);
      var tail := s[1..];
      assert s == [s[0]] + tail;
      QueuedStep([], s[0], tail, s);
      groups := FoldGroups(s[0], [s[0]], tail, gap);
      SameMembers([s[0]], [], tail, tail);
      SameMembers([], [s[0]], tail, s);
    }
  }

  lemma ProperMembers(bands: seq<Band>, part: seq<Band>)
    requires Proper(bands) && forall x :: x in part ==> x in bands
    ensures Proper(part)
  {
    forall i | 0 <= i < |part| ensures part[i].startHz <= part[i].stopHz {
      assert part[i] in bands;
    }
  }

  lemma InSomeOutput(m: seq<Band>, groups: seq<seq<Band>>, gap: Hz, x: Band) returns (k: nat)
    requires Grouped(m, groups, gap) && InSome(x, groups)
    ensures k < |m| && x in groups[k] && Contains(m[k], x)
  {
    k :| 0 <= k < |groups| && x in groups[k];
    assert MergedFrom(m[k], groups[k], gap);
  }

  // A group is the inputs inside its output.
  lemma GroupIsInside(m: seq<Band>, groups: seq<seq<Band>>, gap: Hz, bands: seq<Band>, k: nat)
    requires gap >= 0 && Proper(bands) && Grouped(m, groups, gap) && k < |m|
    requires forall x {:trigger InSome(x, groups)} :: InSome(x, groups) <==> x in bands
    ensures MergedFrom(m[k], Inside(m[k], bands), gap)
  {
    assert MergedFrom(m[k], groups[k], gap);
    forall x ensures x in groups[k] <==> x in Inside(m[k], bands) {
      InsideMembers(m[k], bands, x);
      if x in groups[k] {
        assert InSome(x, groups);
      } else if x in bands && Contains(m[k], x) {
        assert InSome(x, groups);
        var l := InSomeOutput(m, groups, gap, x);
        ProperMembers(bands, [x]);
        assert [x][0] == x;
        ContainedOnce(m, gap, x, k, l);
      }
    }
    MergedFromMembers(m[k], groups[k], Inside(m[k], bands), gap);
  }

  // The merged bands are sorted and pairwise further apart than the gap; every input lies in exactly one of them;
  // and each is made of exactly the inputs inside it: its ends, its peak and its other figures come from them, its
  // peak is their highest, and all but the leftmost follow one of them within the gap.
  lemma MergeIsPartition(bands: seq<Band>, gap: Hz)
    requires gap >= 0 && Proper(bands)
    ensures var m := Merge(bands, gap);
            && Separated(m, gap)
            && (forall x :: x in bands ==> exists k :: 0 <= k < |m| && Contains(m[k], x))
            && (forall x, k, l :: x in bands && 0 <= k < |m| && 0 <= l < |m| && Contains(m[k], x) && Contains(m[l], x) ==> k == l)
            && (forall k :: 0 <= k < |m| ==> MergedFrom(m[k], Inside(m[k], bands), gap))
  {
    var m := Merge(bands, gap);
    var groups := MergeGroups(bands, gap);
    forall x | x in bands ensures exists k :: 0 <= k < |m| && Contains(m[k], x) {
      assert InSome(x, groups);
      var k := InSomeOutput(m, groups, gap, x);
    }
    forall x, k, l | x in bands && 0 <= k < |m| && 0 <= l < |m| && Contains(m[k], x) && Contains(m[l], x) ensures k == l {
      ProperMembers(bands, [x]);
      assert [x][0] == x;
      ContainedOnce(m, gap, x, k, l);
    }
    forall k | 0 <= k < |m| ensures MergedFrom(m[k], Inside(m[k], bands), gap) {
      GroupIsInside(m, groups, gap, bands, k);
    }
  }
}
