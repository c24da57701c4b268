/**
 Grouping active bins into bands: candidate_bands of aggregation.rs, and the controller's
 median threshold and merge_candidates of sweep.rs, which is the case of gap zero.
 */
module Bands {
  import opened Outcome
  import opened Sorting

  datatype Range = Range(lo: nat, hi: nat)

  const MAX_CANDIDATES: nat := 32

  // ----- what a grouping is -----

  function Flags(power: seq<real>, threshold: real): (flags: seq<bool>) {
    seq(|power|, i requires 0 <= i < |power| => power[i] >= threshold)
  }

  predicate InRange(r: Range, x: nat) { r.lo <= x <= r.hi }

  // Some bin of the `gap + 1` from p on is active.
  ghost predicate ActiveWithin(flags: seq<bool>, p: nat, gap: nat) {
    exists q :: p <= q <= p + gap && q < |flags| && flags[q]
  }

  // No run of inactive bins between x and y is longer than the gap.
  ghost predicate Close(flags: seq<bool>, x: nat, y: nat, gap: nat) {
    forall p {:trigger ActiveWithin(flags, p, gap)} :: x < p && p + gap < y ==> ActiveWithin(flags, p, gap)
  }

  ghost predicate Covered(rs: seq<Range>, x: nat) { exists k :: 0 <= k < |rs| && InRange(rs[k], x) }
  ghost predicate Share(rs: seq<Range>, x: nat, y: nat) {
    exists k :: 0 <= k < |rs| && InRange(rs[k], x) && InRange(rs[k], y)
  }

  // Ascending, disjoint ranges with active ends that hold every active bin.
  ghost predicate Tiles(flags: seq<bool>, rs: seq<Range>) {
    && (forall i, j :: 0 <= i < j < |rs| ==> rs[i].hi < rs[j].lo)
    && (forall k :: 0 <= k < |rs| ==> rs[k].lo <= rs[k].hi < |flags| && flags[rs[k].lo] && flags[rs[k].hi])
    && (forall x {:trigger Covered(rs, x)} :: 0 <= x < |flags| && flags[x] ==> Covered(rs, x))
  }

  // Two active bins share a range exactly when they are close.
  ghost predicate Partition(flags: seq<bool>, gap: nat, rs: seq<Range>) {
    && Tiles(flags, rs)
    && (forall x, y {:trigger Share(rs, x, y)} :: 0 <= x < y < |flags| && flags[x] && flags[y] ==>
          (Share(rs, x, y) <==> Close(flags, x, y, gap)))
  }

  // ----- there is only one -----

  // A range of one partition is a range of the other.
  lemma RangeInBoth(flags: seq<bool>, gap: nat, rs: seq<Range>, ts: seq<Range>, k: nat) returns (l: nat)
    requires Partition(flags, gap, rs) && Partition(flags, gap, ts) && k < |rs|
    ensures l < |ts| && ts[l] == rs[k]
  {
    var r := rs[k];
    assert Covered(ts, r.lo);
    l :| 0 <= l < |ts| && InRange(ts[l], r.lo);
    SameRange(flags, gap, rs, ts, k, l, r.lo);
  }

  lemma SameRange(flags: seq<bool>, gap: nat, rs: seq<Range>, ts: seq<Range>, k: nat, l: nat, x: nat)
    requires Partition(flags, gap, rs) && Partition(flags, gap, ts) && k < |rs| && l < |ts|
    requires InRange(rs[k], x) && InRange(ts[l], x) && x < |flags| && flags[x]
    ensures ts[l] == rs[k]
  {
    Reaches(flags, gap, rs, ts, k, l, x, rs[k].lo);
    Reaches(flags, gap, rs, ts, k, l, x, rs[k].hi);
    Reaches(flags, gap, ts, rs, l, k, x, ts[l].lo);
    Reaches(flags, gap, ts, rs, l, k, x, ts[l].hi);
  }

  // An active bin in the range of x in one partition is in the range of x in the other.
  lemma Reaches(flags: seq<bool>, gap: nat, rs: seq<Range>, ts: seq<Range>, k: nat, l: nat, x: nat, y: nat)
    requires Partition(flags, gap, rs) && Partition(flags, gap, ts) && k < |rs| && l < |ts|
    requires InRange(rs[k], x) && InRange(ts[l], x) && x < |flags| && flags[x]
    requires InRange(rs[k], y) && y < |flags| && flags[y]
    ensures InRange(ts[l], y)
  {
    var a, b := if x <= y then x else y, if x <= y then y else x;
    if a < b {
      assert Share(rs, a, b);
      assert Share(ts, a, b);
      var m :| 0 <= m < |ts| && InRange(ts[m], a) && InRange(ts[m], b);
      OneRange(flags, ts, m, l, x);
    }
  }

  lemma OneRange(flags: seq<bool>, rs: seq<Range>, k: nat, l: nat, x: nat)
    requires Tiles(flags, rs) && k < |rs| && l < |rs| && InRange(rs[k], x) && InRange(rs[l], x)
    ensures k == l
  {
  }

  lemma {:induction false} SamePrefix(flags: seq<bool>, gap: nat, rs: seq<Range>, ts: seq<Range>, n: nat)
    requires Partition(flags, gap, rs) && Partition(flags, gap, ts) && n <= |rs|
    ensures n <= |ts| && forall k :: 0 <= k < n ==> rs[k] == ts[k]
  {
    if n > 0 {
      SamePrefix(flags, gap, rs, ts, n - 1);
      var l := RangeInBoth(flags, gap, rs, ts, n - 1);
      var m := RangeInBoth(flags, gap, ts, rs, n - 1);
    }
  }

  // Ascending ranges with active ends, sharing exactly the close bins: at most one such list exists.
  lemma PartitionIsUnique(flags: seq<bool>, gap: nat, rs: seq<Range>, ts: seq<Range>)
    requires Partition(flags, gap, rs) && Partition(flags, gap, ts)
    ensures rs == ts
  {
    SamePrefix(flags, gap, rs, ts, |rs|);
    SamePrefix(flags, gap, ts, rs, |ts|);
  }

  // ----- from the active bins to the ranges -----

  ghost predicate Listed(active: seq<nat>, x: nat) { exists i :: 0 <= i < |active| && active[i] == x }

  // `active` lists the active bins below n, in order.
  ghost predicate Lists(flags: seq<bool>, active: seq<nat>, n: nat) {
    && (forall i, j :: 0 <= i < j < |active| ==> active[i] < active[j])
    && (forall i :: 0 <= i < |active| ==> active[i] < n && active[i] < |flags| && flags[active[i]])
    && (forall x {:trigger Listed(active, x)} :: 0 <= x < n && x < |flags| && flags[x] ==> Listed(active, x))
  }

  method ActiveBins(power: seq<real>, threshold: real) returns (active: seq<nat>)
    ensures Lists(Flags(power, threshold), active, |power|)
  {
    active := [];
    var index := 0;
    ghost var flags := Flags(power, threshold);
    while index < |power|
      invariant 0 <= index <= |power|
      invariant Lists(flags, active, index)
    {
      ghost var before := active;
      if power[index] >= threshold { active := active + [index]; }
      ListsStep(flags, before, index, active);
      index := index + 1;
    }
  }

  lemma ListsStep(flags: seq<bool>, active: seq<nat>, n: nat, next: seq<nat>)
    requires Lists(flags, active, n) && n < |flags| && next == if flags[n] then active + [n] else active
    ensures Lists(flags, next, n + 1)
  {
    forall x | 0 <= x < n + 1 && flags[x] ensures Listed(next, x) {
      if x < n {
        assert Listed(active, x);
        var i :| 0 <= i < |active| && active[i] == x;
        assert next[i] == x;
      } else {
        assert next[|active|] == x;
      }
    }
  }

  // The grouping loop starts a new range between active bins i and i + 1.
  predicate Cut(active: seq<nat>, gap: nat, i: nat)
    requires i + 1 < |active|
  {
    active[i + 1] - active[i] - 1 > gap
  }

  // Range r is active[lo..hi]: no cut inside, and a cut after it.
  ghost predicate Block(active: seq<nat>, gap: nat, r: Range, lo: nat, hi: nat) {
    && lo < hi <= |active| && r == Range(active[lo], active[hi - 1])
    && Uncut(active, gap, lo, hi)
    && (hi < |active| ==> Cut(active, gap, hi - 1))
  }

  ghost predicate Uncut(active: seq<nat>, gap: nat, lo: nat, hi: nat)
    requires hi <= |active|
  {
    forall i :: lo <= i < hi - 1 ==> !Cut(active, gap, i)
  }

  // The ranges are the blocks between the boundaries b.
  ghost predicate Blocks(active: seq<nat>, gap: nat, rs: seq<Range>, b: seq<nat>) {
    |b| == |rs| + 1 && b[0] == 0 && forall k :: 0 <= k < |rs| ==> Block(active, gap, rs[k], b[k], b[k + 1])
  }

  lemma {:induction false} Boundaries(active: seq<nat>, gap: nat, rs: seq<Range>, b: seq<nat>, i: nat, j: nat)
    requires Blocks(active, gap, rs, b) && i <= j <= |rs|
    ensures b[i] <= b[j]
    decreases j
  {
    if i < j {
      Boundaries(active, gap, rs, b, i, j - 1);
      assert Block(active, gap, rs[j - 1], b[j - 1], b[j]);
    }
  }

  lemma CloseRange(active: seq<nat>, gap: nat, rs: seq<Range>, b: seq<nat>, end: nat)
    requires Blocks(active, gap, rs, b) && b[|rs|] < end <= |active|
    requires Block(active, gap, Range(active[b[|rs|]], active[end - 1]), b[|rs|], end)
    ensures Blocks(active, gap, rs + [Range(active[b[|rs|]], active[end - 1])], b + [end])
  {
  }

  // The loop of candidate_bands over the active bins.
  method GroupLoop(active: seq<nat>, gap: nat) returns (ranges: seq<Range>)
    requires forall i, j :: 0 <= i < j < |active| ==> active[i] < active[j]
    ensures exists b :: Blocks(active, gap, ranges, b) && b[|ranges|] == |active|
  {
    ranges := [];
    ghost var b: seq<nat> := [0];
    if |active| == 0 {
      assert Blocks(active, gap, ranges, b);
      return;
    }
    var start, previous := active[0], active[0];
    var i := 1;
    while i < |active|
      invariant 1 <= i <= |active|
      invariant Blocks(active, gap, ranges, b) && b[|ranges|] < i
      invariant start == active[b[|ranges|]] && previous == active[i - 1]
      invariant Uncut(active, gap, b[|ranges|], i)
    {
      var index := active[i];
      if index - previous - 1 > gap {
        CloseRange(active, gap, ranges, b, i);
        ranges, b := ranges + [Range(start, previous)], b + [i];
        start := index;
      }
      previous := index;
      i := i + 1;
    }
    CloseRange(active, gap, ranges, b, i);
    ranges, b := ranges + [Range(start, previous)], b + [i];
  }

  lemma {:induction false} Locate(active: seq<nat>, gap: nat, rs: seq<Range>, b: seq<nat>, i: nat, n: nat) returns (k: nat)
    requires Blocks(active, gap, rs, b) && n <= |rs| && i < b[n]
    ensures k < n && b[k] <= i < b[k + 1]
  {
    assert n > 0 ==> Block(active, gap, rs[n - 1], b[n - 1], b[n]);
    if i >= b[n - 1] { k := n - 1; } else { k := Locate(active, gap, rs, b, i, n - 1); }
  }

  // The active bin after which p comes.
  lemma {:induction false} Before(active: seq<nat>, i: nat, j: nat, p: nat) returns (m: nat)
    requires i < j < |active| && active[i] < p <= active[j]
    ensures i <= m < j && active[m] < p <= active[m + 1]
    decreases j - i
  {
    if p <= active[i + 1] { m := i; } else { m := Before(active, i + 1, j, p); }
  }

  lemma NoCutIsClose(flags: seq<bool>, active: seq<nat>, gap: nat, i: nat, j: nat)
    requires Lists(flags, active, |flags|) && i < j < |active|
    requires forall m :: i <= m < j ==> !Cut(active, gap, m)
    ensures Close(flags, active[i], active[j], gap)
  {
    forall p | active[i] < p && p + gap < active[j] ensures ActiveWithin(flags, p, gap) {
      var m := Before(active, i, j, p);
      assert !Cut(active, gap, m);
      assert flags[active[m + 1]] && p <= active[m + 1] <= p + gap;
    }
  }

  lemma CutIsNotClose(flags: seq<bool>, active: seq<nat>, gap: nat, i: nat, j: nat, c: nat)
    requires Lists(flags, active, |flags|) && i <= c < j < |active| && Cut(active, gap, c)
    ensures !Close(flags, active[i], active[j], gap)
  {
    var p := active[c] + 1;
    forall q | p <= q <= p + gap && q < |flags| ensures !flags[q] {
      NoneBetween(flags, active, c, q);
    }
    assert !ActiveWithin(flags, p, gap);
    assert active[i] <= active[c] && active[c + 1] <= active[j];
  }

  lemma NoneBetween(flags: seq<bool>, active: seq<nat>, c: nat, q: nat)
    requires Lists(flags, active, |flags|) && c + 1 < |active| && active[c] < q < active[c + 1] && q < |flags|
    ensures !flags[q]
  {
    if flags[q] {
      assert Listed(active, q);
      var z :| 0 <= z < |active| && active[z] == q;
    }
  }

  lemma InBlock(active: seq<nat>, gap: nat, rs: seq<Range>, b: seq<nat>, i: nat, k: nat)
    requires Blocks(active, gap, rs, b) && k < |rs| && b[k] <= i < b[k + 1]
    requires forall i, j :: 0 <= i < j < |active| ==> active[i] < active[j]
    ensures i < |active| && InRange(rs[k], active[i])
  {
  }

  lemma BlocksTile(flags: seq<bool>, active: seq<nat>, gap: nat, rs: seq<Range>, b: seq<nat>)
    requires Lists(flags, active, |flags|) && Blocks(active, gap, rs, b) && b[|rs|] == |active|
    ensures Tiles(flags, rs)
  {
    forall x | 0 <= x < |flags| && flags[x] ensures Covered(rs, x) {
      assert Listed(active, x);
      var i :| 0 <= i < |active| && active[i] == x;
      var k := Locate(active, gap, rs, b, i, |rs|);
      InBlock(active, gap, rs, b, i, k);
    }
    forall i, j | 0 <= i < j < |rs| ensures rs[i].hi < rs[j].lo {
      Boundaries(active, gap, rs, b, i + 1, j);
      BlockEnds(flags, active, gap, rs, b, i);
      BlockEnds(flags, active, gap, rs, b, j);
    }
    forall k | 0 <= k < |rs| ensures rs[k].lo <= rs[k].hi < |flags| && flags[rs[k].lo] && flags[rs[k].hi] {
      BlockEnds(flags, active, gap, rs, b, k);
    }
  }

  lemma BlockEnds(flags: seq<bool>, active: seq<nat>, gap: nat, rs: seq<Range>, b: seq<nat>, k: nat)
    requires Lists(flags, active, |flags|) && Blocks(active, gap, rs, b) && k < |rs|
    ensures b[k] < b[k + 1] <= |active| && rs[k] == Range(active[b[k]], active[b[k + 1] - 1])
    ensures rs[k].lo <= rs[k].hi < |flags| && flags[rs[k].lo] && flags[rs[k].hi]
  {
  }

  lemma BlocksShare(flags: seq<bool>, active: seq<nat>, gap: nat, rs: seq<Range>, b: seq<nat>, i: nat, j: nat)
    requires Lists(flags, active, |flags|) && Blocks(active, gap, rs, b) && b[|rs|] == |active| && i < j < |active|
    ensures Share(rs, active[i], active[j]) <==> Close(flags, active[i], active[j], gap)
  {
    BlocksTile(flags, active, gap, rs, b);
    var k := Locate(active, gap, rs, b, i, |rs|);
    var l := Locate(active, gap, rs, b, j, |rs|);
    InBlock(active, gap, rs, b, i, k);
    InBlock(active, gap, rs, b, j, l);
    assert Block(active, gap, rs[k], b[k], b[k + 1]);
    if k == l {
      NoCutIsClose(flags, active, gap, i, j);
    } else if k < l {
      Boundaries(active, gap, rs, b, k + 1, l);
      CutIsNotClose(flags, active, gap, i, j, b[k + 1] - 1);
    }
  }

  lemma BlocksPartition(flags: seq<bool>, active: seq<nat>, gap: nat, rs: seq<Range>, b: seq<nat>)
    requires Lists(flags, active, |flags|) && Blocks(active, gap, rs, b) && b[|rs|] == |active|
    ensures Partition(flags, gap, rs)
  {
    BlocksTile(flags, active, gap, rs, b);
    forall x, y | 0 <= x < y < |flags| && flags[x] && flags[y]
      ensures Share(rs, x, y) <==> Close(flags, x, y, gap)
    {
      assert Listed(active, x) && Listed(active, y);
      var i :| 0 <= i < |active| && active[i] == x;
      var j :| 0 <= j < |active| && active[j] == y;
      assert i < j;
      BlocksShare(flags, active, gap, rs, b, i, j);
    }
  }

  // The ranges of candidate_bands.
  method CandidateRanges(power: seq<real>, threshold: real, gap: nat) returns (ranges: seq<Range>)
    ensures Partition(Flags(power, threshold), gap, ranges)
  {
    var active := ActiveBins(power, threshold);
    ranges := GroupLoop(active, gap);
    ghost var b :| Blocks(active, gap, ranges, b) && b[|ranges|] == |active|;
    BlocksPartition(Flags(power, threshold), active, gap, ranges, b);
  }

  // ----- the controller -----

  function FirstCandidates(rs: seq<Range>): seq<Range> { if |rs| <= MAX_CANDIDATES then rs else rs[..MAX_CANDIDATES] }

  // The ranges of merge_candidates in sweep.rs: neighbouring indices only, and the first 32 ranges.
  method ControllerRanges(power: seq<real>, threshold: real) returns (ranges: seq<Range>)
    ensures exists whole :: Partition(Flags(power, threshold), 0, whole) && ranges == FirstCandidates(whole)
  {
    var active := ActiveBins(power, threshold);
    ghost var b: seq<nat> := [0];
    ranges := [];
    if |active| > 0 {
      var start, stop := active[0], active[0];
      var i := 1;
      while i < |active|
        invariant 1 <= i <= |active|
        invariant Blocks(active, 0, ranges, b) && b[|ranges|] < i
        invariant start == active[b[|ranges|]] && stop == active[i - 1]
        invariant Uncut(active, 0, b[|ranges|], i)
      {
        var index := active[i];
        if index == stop + 1 {
          stop := index;
        } else {
          CloseRange(active, 0, ranges, b, i);
          ranges, b := ranges + [Range(start, stop)], b + [i];
          start := index;
          stop := index;
        }
        i := i + 1;
      }
      CloseRange(active, 0, ranges, b, i);
      ranges, b := ranges + [Range(start, stop)], b + [i];
    }
    BlocksPartition(Flags(power, threshold), active, 0, ranges, b);
    ghost var whole := ranges;
    if |ranges| > MAX_CANDIDATES { ranges := ranges[..MAX_CANDIDATES]; }
    assert Partition(Flags(power, threshold), 0, whole) && ranges == FirstCandidates(whole);
  }

  // The loudest index of a range, the last one among equals.
  method PeakOf(power: seq<real>, r: Range) returns (peak: nat)
    requires r.lo <= r.hi < |power|
    ensures InRange(r, peak)
    ensures forall i :: r.lo <= i <= r.hi ==> power[i] <= power[peak]
    ensures forall i :: peak < i <= r.hi ==> power[i] < power[peak]
  {
    peak := r.lo;
    var i := r.lo + 1;
    while i <= r.hi
      invariant r.lo <= peak < i <= r.hi + 1
      invariant forall k :: r.lo <= k < i ==> power[k] <= power[peak]
      invariant forall k :: peak < k < i ==> power[k] < power[peak]
    {
      if power[i] >= power[peak] { peak := i; }
      i := i + 1;
    }
  }

  // ----- the median -----

  predicate Leq(a: real, b: real) { a <= b }

  // median_power_dbfs
  function Median(power: seq<real>): Option<real> {
    SortPermutes(power, Leq);
    if power == [] then None else Some(Sort(power, Leq)[|power| / 2])
  }

  function CountAbove(s: seq<real>, t: real): (n: nat)
    ensures n <= |s|
  {
    if s == [] then 0 else CountAbove(s[..|s| - 1], t) + (if s[|s| - 1] > t then 1 else 0)
  }

  lemma {:induction false} CountInsert(s: seq<real>, x: real, t: real)
    ensures CountAbove(Insert(s, x, Leq), t) == CountAbove(s, t) + (if x > t then 1 else 0)
  {
    var r := Insert(s, x, Leq);
    if s == [] || Leq(s[|s| - 1], x) {
      assert r[..|r| - 1] == s;
    } else {
      CountInsert(s[..|s| - 1], x, t);
      assert r[..|r| - 1] == Insert(s[..|s| - 1], x, Leq);
    }
  }

  lemma {:induction false} CountSort(s: seq<real>, t: real)
    ensures CountAbove(Sort(s, Leq), t) == CountAbove(s, t)
  {
    if s != [] {
      CountSort(s[..|s| - 1], t);
      CountInsert(Sort(s[..|s| - 1], Leq), s[|s| - 1], t);
    }
  }

  lemma {:induction false} CountAfter(s: seq<real>, t: real, k: nat)
    requires k <= |s| && forall i :: 0 <= i < k ==> s[i] <= t
    ensures CountAbove(s, t) <= |s| - k
  {
    if k < |s| { CountAfter(s[..|s| - 1], t, k); }
    else if |s| > 0 { CountAfter(s[..|s| - 1], t, k - 1); }
  }

  // At most the upper half, without the median itself, lies above the median.
  lemma MedianBound(power: seq<real>)
    requires power != []
    ensures CountAbove(power, Median(power).value) <= (|power| + 1) / 2 - 1
  {
    SortSorts(power, Leq);
    SortPermutes(power, Leq);
    var s, half := Sort(power, Leq), |power| / 2;
    UpToMedian(s, half);
    CountAfter(s, s[half], half + 1);
    CountSort(power, s[half]);
  }

  lemma UpToMedian(s: seq<real>, half: nat)
    requires Sorted(s, Leq) && half < |s|
    ensures forall i :: 0 <= i < half + 1 ==> s[i] <= s[half]
  {
  }

  function CountBelow(s: seq<real>, t: real): (n: nat)
    ensures n <= |s|
  {
    if s == [] then 0 else CountBelow(s[..|s| - 1], t) + (if s[|s| - 1] < t then 1 else 0)
  }

  lemma {:induction false} BelowInsert(s: seq<real>, x: real, t: real)
    ensures CountBelow(Insert(s, x, Leq), t) == CountBelow(s, t) + (if x < t then 1 else 0)
  {
    var r := Insert(s, x, Leq);
    if s == [] || Leq(s[|s| - 1], x) {
      assert r[..|r| - 1] == s;
    } else {
      BelowInsert(s[..|s| - 1], x, t);
      assert r[..|r| - 1] == Insert(s[..|s| - 1], x, Leq);
    }
  }

  lemma {:induction false} BelowSort(s: seq<real>, t: real)
    ensures CountBelow(Sort(s, Leq), t) == CountBelow(s, t)
  {
    if s != [] {
      BelowSort(s[..|s| - 1], t);
      BelowInsert(Sort(s[..|s| - 1], Leq), s[|s| - 1], t);
    }
  }

  lemma {:induction false} BelowUpTo(s: seq<real>, t: real, k: nat)
    requires k <= |s| && forall i :: k <= i < |s| ==> s[i] >= t
    ensures CountBelow(s, t) <= k
  {
    if k < |s| { BelowUpTo(s[..|s| - 1], t, k); }
  }

  // The median is one of the points, and at most the lower half lies below it.
  lemma MedianFromBelow(power: seq<real>)
    requires power != []
    ensures Median(power).value in power && CountBelow(power, Median(power).value) <= |power| / 2
  {
    SortSorts(power, Leq);
    SortPermutes(power, Leq);
    var s, half := Sort(power, Leq), |power| / 2;
    assert s[half] in multiset(s);
    FromMedian(s, half);
    BelowUpTo(s, s[half], half);
    BelowSort(power, s[half]);
  }

  lemma FromMedian(s: seq<real>, half: nat)
    requires Sorted(s, Leq) && half < |s|
    ensures forall i :: half <= i < |s| ==> s[i] >= s[half]
  {
  }

  function CountTrue(flags: seq<bool>): nat {
    if flags == [] then 0 else CountTrue(flags[..|flags| - 1]) + (if flags[|flags| - 1] then 1 else 0)
  }

  lemma {:induction false} ActiveAreAbove(power: seq<real>, t: real, threshold: real)
    requires t < threshold
    ensures CountTrue(Flags(power, threshold)) <= CountAbove(power, t)
  {
    if power != [] {
      var f := Flags(power, threshold);
      ActiveAreAbove(power[..|power| - 1], t, threshold);
      assert f[..|f| - 1] == Flags(power[..|power| - 1], threshold);
    }
  }

  // With a positive threshold over the median, fewer than half of the points are active.
  lemma ActiveMinority(power: seq<real>, thresholdDb: real)
    requires power != [] && thresholdDb > 0.0
    ensures CountTrue(Flags(power, Median(power).value + thresholdDb)) <= (|power| + 1) / 2 - 1
  {
    MedianBound(power);
    ActiveAreAbove(power, Median(power).value, Median(power).value + thresholdDb);
  }

  // So a one-point inspection never yields a candidate.
  lemma OnePointYieldsNone(power: seq<real>, thresholdDb: real, ranges: seq<Range>, gap: nat)
    requires |power| == 1 && thresholdDb > 0.0
    requires Partition(Flags(power, Median(power).value + thresholdDb), gap, ranges)
    ensures ranges == []
  {
    var flags := Flags(power, Median(power).value + thresholdDb);
    assert |ranges| > 0 ==> flags[ranges[0].lo];
    ActiveMinority(power, thresholdDb);
    assert CountTrue(flags[..0]) == 0;
  }
}
