/** Lengths of unions of half-open time intervals: the sweep of benchmarks/analyze_nsys.py, its
    clipped form and timeline summary, and the two sweeps of the trace exporters. */
module Intervals {
  import opened FiniteSets
  import opened Wrappers

  datatype Interval = Interval(start: int, end: int)

  // ----- the independent meaning: how many instants are covered

  /** The integer instants a, a + 1, ..., b - 1. */
  function Instants(a: int, b: int): set<int> {
    set t | a <= t < b && Within(t, a, b)
  }

  predicate Within(t: int, a: int, b: int) { a <= t < b }

  function Covered(intervals: seq<Interval>): set<int> {
    if intervals == [] then {} else Instants(intervals[0].start, intervals[0].end) + Covered(intervals[1..])
  }

  predicate Covers(intervals: seq<Interval>, t: int) {
    exists i :: 0 <= i < |intervals| && intervals[i].start <= t < intervals[i].end
  }

  lemma {:induction false} CoveredIff(intervals: seq<Interval>, t: int)
    ensures t in Covered(intervals) <==> Covers(intervals, t)
  {
    if intervals != [] {
      CoveredIff(intervals[1..], t);
      if Covers(intervals[1..], t) {
        var i :| 0 <= i < |intervals[1..]| && intervals[1..][i].start <= t < intervals[1..][i].end;
        assert intervals[i + 1].start <= t < intervals[i + 1].end;
      }
      if Covers(intervals, t) && !(intervals[0].start <= t < intervals[0].end) {
        var i :| 0 <= i < |intervals| && intervals[i].start <= t < intervals[i].end;
        assert intervals[1..][i - 1] == intervals[i];
      }
    }
  }

  /** The covered instants depend only on which intervals occur: not on order, not on duplicates. */
  lemma SameMembersSameCover(a: seq<Interval>, b: seq<Interval>)
    requires forall iv: Interval :: iv.start < iv.end ==> (iv in a <==> iv in b)
    ensures Covered(a) == Covered(b)
  {
    forall t ensures t in Covered(a) <==> t in Covered(b) {
      CoveredIff(a, t);
      CoveredIff(b, t);
      if Covers(a, t) {
        var i :| 0 <= i < |a| && a[i].start <= t < a[i].end;
        assert a[i] in b;
      }
      if Covers(b, t) {
        var i :| 0 <= i < |b| && b[i].start <= t < b[i].end;
        assert b[i] in a;
      }
    }
  }

  lemma {:induction false} InstantsCount(a: int, b: int)
    ensures |Instants(a, b)| == if a <= b then b - a else 0
    decreases b - a
  {
    if a < b {
      InstantsCount(a, b - 1);
      assert Instants(a, b) == Instants(a, b - 1) + {b - 1};
    } else {
      assert Instants(a, b) == {};
    }
  }

  // ----- sorting (the library's `sorted`)

  predicate Before(a: Interval, b: Interval) { a.start < b.start || (a.start == b.start && a.end <= b.end) }

  predicate Sorted(s: seq<Interval>) { forall i, j :: 0 <= i < j < |s| ==> Before(s[i], s[j]) }

  function Insert(x: Interval, s: seq<Interval>): (r: seq<Interval>)
    requires Sorted(s)
    ensures Sorted(r) && |r| == |s| + 1
    ensures forall y :: y in r <==> y == x || y in s
  {
    if s == [] then [x]
    else if Before(x, s[0]) then
      assert forall y :: y in [x] + s <==> y == x || y in s;
      [x] + s
    else
      var tail := Insert(x, s[1..]);
      var r := [s[0]] + tail;
      assert forall j :: 0 <= j < |tail| ==> tail[j] in tail;
      assert s == [s[0]] + s[1..];
      r
  }

  function Sort(s: seq<Interval>): (r: seq<Interval>)
    ensures Sorted(r) && |r| == |s| && forall y :: y in r <==> y in s
  {
    if s == [] then []
    else
      assert s == [s[0]] + s[1..];
      Insert(s[0], Sort(s[1..]))
  }

  // ----- the sweeps

  /** An inverted interval that starts after everything sorted before it has ended. */
  predicate Isolated(ordered: seq<Interval>, i: nat)
    requires i < |ordered|
  {
    ordered[i].end < ordered[i].start && forall j :: 0 <= j < i ==> ordered[j].end < ordered[i].start
  }

  /** What the isolated inverted intervals among the first n take away from the sweep. */
  function Deficit(ordered: seq<Interval>, n: nat): (d: nat)
    requires n <= |ordered|
  {
    if n == 0 then 0
    else Deficit(ordered, n - 1) + (if Isolated(ordered, n - 1) then ordered[n - 1].start - ordered[n - 1].end else 0)
  }

  /** State of a sweep after the first n intervals: `done` holds the covered instants left of the
      open run [start, end), `top` is where the run got its end. */
  ghost predicate Swept(ordered: seq<Interval>, n: nat, total: int, start: int, end: int, done: set<int>, top: nat) {
    && 0 < n <= |ordered|
    && (forall t :: t in done ==> t < start)
    && Covered(ordered[..n]) == done + Instants(start, end)
    && total + Deficit(ordered, n) == |done| + (if end < start then start - end else 0)
    && EndsOk(ordered, n, start, end, top)
  }

  ghost predicate EndsOk(ordered: seq<Interval>, n: nat, start: int, end: int, top: nat)
    requires n <= |ordered|
  {
    if end < start then forall j :: 0 <= j < n ==> ordered[j].end < start
    else top < n && ordered[top].end == end && forall j :: 0 <= j < n ==> ordered[j].end <= end
  }

  lemma CloseEnds(ordered: seq<Interval>, n: nat, start: int, end: int, top: nat)
    requires n < |ordered| && EndsOk(ordered, n, start, end, top)
    requires ordered[n].start > end && ordered[n].start >= start
    ensures EndsOk(ordered, n + 1, ordered[n].start, ordered[n].end, n)
    ensures Deficit(ordered, n + 1) == Deficit(ordered, n) + Max(0, ordered[n].start - ordered[n].end)
  {
    assert Isolated(ordered, n) <==> ordered[n].end < ordered[n].start;
  }

  lemma {:induction false} CoveredSnoc(seen: seq<Interval>, next: Interval)
    ensures Covered(seen + [next]) == Covered(seen) + Instants(next.start, next.end)
  {
    if seen == [] {
      assert seen + [next] == [next] && Covered([next][1..]) == {};
    } else {
      assert (seen + [next])[1..] == seen[1..] + [next];
      CoveredSnoc(seen[1..], next);
    }
  }

  lemma SweepStart(ordered: seq<Interval>)
    requires ordered != []
    ensures Swept(ordered, 1, 0, ordered[0].start, ordered[0].end, {}, 0)
  {
    CoveredSnoc([], ordered[0]);
    assert ordered[..1] == [] + [ordered[0]];
    assert Deficit(ordered, 0) == 0;
  }

  lemma CloseCover(ordered: seq<Interval>, n: nat, start: int, end: int, done: set<int>)
    requires 0 < n < |ordered| && Covered(ordered[..n]) == done + Instants(start, end)
    requires forall t :: t in done ==> t < start
    ensures Covered(ordered[..n + 1]) == (done + Instants(start, end)) + Instants(ordered[n].start, ordered[n].end)
    ensures |done + Instants(start, end)| == |done| + (if start <= end then end - start else 0)
  {
    CoveredSnoc(ordered[..n], ordered[n]);
    InstantsCount(start, end);
    assert ordered[..n + 1] == ordered[..n] + [ordered[n]];
    assert done !! Instants(start, end);
  }

  /** The next interval starts after the open run: the run is closed and counted. */
  lemma SweepClose(ordered: seq<Interval>, n: nat, total: int, start: int, end: int, done: set<int>, top: nat)
    requires Swept(ordered, n, total, start, end, done, top) && n < |ordered|
    requires ordered[n].start > end && ordered[n].start >= start
    ensures Swept(ordered, n + 1, total + end - start, ordered[n].start, ordered[n].end, done + Instants(start, end), n)
  {
    CloseCover(ordered, n, start, end, done);
    CloseEnds(ordered, n, start, end, top);
  }

  lemma ExtendEnds(ordered: seq<Interval>, n: nat, start: int, end: int, top: nat)
    requires n < |ordered| && EndsOk(ordered, n, start, end, top)
    requires start <= ordered[n].start <= end
    ensures EndsOk(ordered, n + 1, start, Max(end, ordered[n].end), if end >= ordered[n].end then top else n)
    ensures Deficit(ordered, n + 1) == Deficit(ordered, n)
  {
    assert !Isolated(ordered, n);
  }

  lemma ExtendCover(ordered: seq<Interval>, n: nat, start: int, end: int, done: set<int>)
    requires n < |ordered| && Covered(ordered[..n]) == done + Instants(start, end)
    requires start <= ordered[n].start <= end
    ensures Covered(ordered[..n + 1]) == done + Instants(start, Max(end, ordered[n].end))
  {
    CoveredSnoc(ordered[..n], ordered[n]);
    assert ordered[..n + 1] == ordered[..n] + [ordered[n]];
    assert Instants(start, end) + Instants(ordered[n].start, ordered[n].end)
      == Instants(start, Max(end, ordered[n].end));
  }

  /** The next interval starts inside the open run, or where it ends: the run is extended. */
  lemma SweepExtend(ordered: seq<Interval>, n: nat, total: int, start: int, end: int, done: set<int>, top: nat)
    requires Swept(ordered, n, total, start, end, done, top) && n < |ordered|
    requires start <= ordered[n].start <= end
    ensures Swept(ordered, n + 1, total, start, Max(end, ordered[n].end), done,
                  if end >= ordered[n].end then top else n)
  {
    ExtendCover(ordered, n, start, end, done);
    ExtendEnds(ordered, n, start, end, top);
  }

  /** The loop of all three sweeps, on a sorted non-empty list. */
  method Sweep(ordered: seq<Interval>) returns (total: int)
    requires ordered != [] && Sorted(ordered)
    ensures total == |Covered(ordered)| - Deficit(ordered, |ordered|)
  {
    var start, end := ordered[0].start, ordered[0].end;
    total := 0;
    ghost var done: set<int>, top := {}, 0;
    SweepStart(ordered);
    for i := 1 to |ordered|
      invariant Swept(ordered, i, total, start, end, done, top)
      invariant start <= ordered[i - 1].start
    {
      var next := ordered[i];
      assert Before(ordered[i - 1], next);
      if next.start > end {
        SweepClose(ordered, i, total, start, end, done, top);
        done, top := done + Instants(start, end), i;
        total := total + end - start;
        start, end := next.start, next.end;
      } else {
        SweepExtend(ordered, i, total, start, end, done, top);
        top := if end >= next.end then top else i;
        end := Max(end, next.end);
      }
    }
    InstantsCount(start, end);
    assert ordered[..|ordered|] == ordered && done !! Instants(start, end);
    total := total + end - start;
  }

  function Valid(intervals: seq<Interval>): (r: seq<Interval>)
    ensures forall iv :: iv in r <==> iv in intervals && iv.start < iv.end
  {
    if intervals == [] then []
    else
      assert intervals == [intervals[0]] + intervals[1..];
      (if intervals[0].end > intervals[0].start then [intervals[0]] else []) + Valid(intervals[1..])
  }

  /** _interval_union_ns: empty and inverted intervals are dropped first. */
  method IntervalUnion(intervals: seq<Interval>) returns (total: int)
    ensures total == |Covered(intervals)|
  {
    var valid := Sort(Valid(intervals));
    SameMembersSameCover(valid, intervals);
    if valid == [] {
      return 0;
    }
    NoDeficitIff(valid, |valid|);
    assert forall i :: 0 <= i < |valid| ==> valid[i] in valid && !Isolated(valid, i);
    total := Sweep(valid);
  }

  /** union_duration and union_ns of the trace exporters sort without dropping anything.  Taken by
      themselves, they subtract isolated inverted intervals. */
  method UnionDuration(intervals: seq<Interval>) returns (total: int)
    ensures total == |Covered(intervals)| - Deficit(Sort(intervals), |intervals|)
  {
    if intervals == [] {
      return 0;
    }
    var ordered := Sort(intervals);
    SameMembersSameCover(ordered, intervals);
    total := Sweep(ordered);
  }

  lemma {:induction false} NoDeficitIff(ordered: seq<Interval>, n: nat)
    requires n <= |ordered|
    ensures Deficit(ordered, n) == 0 <==> forall i :: 0 <= i < n ==> !Isolated(ordered, i)
  {
    if n > 0 { NoDeficitIff(ordered, n - 1); }
  }

  /** The two kinds of union agree on a list exactly if no inverted interval of it is isolated in
      sorted order; empty intervals are harmless. */
  lemma UnionsAgreeIff(intervals: seq<Interval>)
    ensures |Covered(intervals)| - Deficit(Sort(intervals), |intervals|) == |Covered(intervals)| <==>
            forall i :: 0 <= i < |intervals| ==> !Isolated(Sort(intervals), i)
    ensures (forall iv :: iv in intervals ==> iv.start <= iv.end) ==> Deficit(Sort(intervals), |intervals|) == 0
  {
    var ordered := Sort(intervals);
    NoDeficitIff(ordered, |ordered|);
    if forall iv :: iv in intervals ==> iv.start <= iv.end {
      forall i | 0 <= i < |ordered| ensures !Isolated(ordered, i) {
        assert ordered[i] in intervals;
      }
    }
  }

  /** Taken by itself, a union of one inverted interval comes out negative where nothing is covered. */
  lemma InvertedExample()
    ensures var ivs := [Interval(9, 4)];
            |Covered(ivs)| == 0 && |Covered(ivs)| - Deficit(Sort(ivs), 1) == -5
  {
    var ivs := [Interval(9, 4)];
    assert Sort(ivs[1..]) == [] && Sort(ivs) == [Interval(9, 4)];
    assert Covered(ivs[1..]) == {};
    assert Isolated(Sort(ivs), 0) && Deficit(Sort(ivs), 0) == 0;
  }

  // ----- clipping and the timeline summary

  function Max(a: int, b: int): int { if a >= b then a else b }
  function Min(a: int, b: int): int { if a <= b then a else b }

  function Clip(intervals: seq<Interval>, start: int, end: int): (r: seq<Interval>)
    ensures |r| == |intervals|
    ensures forall i :: 0 <= i < |r| ==> r[i] == Interval(Max(start, intervals[i].start), Min(end, intervals[i].end))
  {
    seq(|intervals|, i requires 0 <= i < |intervals| =>
      Interval(Max(start, intervals[i].start), Min(end, intervals[i].end)))
  }

  lemma ClipCovers(intervals: seq<Interval>, start: int, end: int)
    ensures Covered(Clip(intervals, start, end)) == Covered(intervals) * Instants(start, end)
  {
    forall t ensures t in Covered(Clip(intervals, start, end)) <==> t in Covered(intervals) && start <= t < end {
      CoveredIff(intervals, t);
      CoveredIff(Clip(intervals, start, end), t);
      if Covers(intervals, t) && start <= t < end {
        var i :| 0 <= i < |intervals| && intervals[i].start <= t < intervals[i].end;
        assert Clip(intervals, start, end)[i].start <= t < Clip(intervals, start, end)[i].end;
      }
    }
  }

  /** The clipped union is the measure of the covered instants inside the CPU window. */
  method ClippedIntervalUnion(intervals: seq<Interval>, start: int, end: int) returns (total: int)
    ensures total == |Covered(intervals) * Instants(start, end)|
  {
    ClipCovers(intervals, start, end);
    total := IntervalUnion(Clip(intervals, start, end));
  }

  // ----- what the exporters hand to their unions

  /** overlap: the part of an interval inside a phase, if there is any. */
  function Overlap(iv: Interval, phase: Interval): Option<Interval> {
    var start, end := Max(iv.start, phase.start), Min(iv.end, phase.end);
    if end > start then Some(Interval(start, end)) else None
  }

  lemma OverlapIff(iv: Interval, phase: Interval)
    ensures Overlap(iv, phase).Some? <==> Instants(iv.start, iv.end) * Instants(phase.start, phase.end) != {}
    ensures var both := Instants(iv.start, iv.end) * Instants(phase.start, phase.end);
            both == match Overlap(iv, phase) case None => {} case Some(part) => Instants(part.start, part.end)
  {
    if Overlap(iv, phase).Some? {
      assert Max(iv.start, phase.start) in Instants(iv.start, iv.end) * Instants(phase.start, phase.end);
    }
  }

  datatype Kernel = Kernel(device: nat, span: Interval)

  /** The kernel rows of one device, in order. */
  function RowsOf(kernels: seq<Kernel>, device: nat): seq<Interval> {
    if kernels == [] then []
    else
      var last := kernels[|kernels| - 1];
      RowsOf(kernels[..|kernels| - 1], device) + (if last.device == device then [last.span] else [])
  }

  /** The overlaps that were collected for a device are not inverted, and cover what its rows cover
      inside the phase. */
  ghost predicate Collected(parts: map<nat, seq<Interval>>, kernels: seq<Kernel>, phase: Interval) {
    forall d: nat ::
      && (d in parts ==> parts[d] != [] && forall iv: Interval :: iv in parts[d] ==> iv.start < iv.end)
      && Covered(if d in parts then parts[d] else []) ==
         Covered(RowsOf(kernels, d)) * Instants(phase.start, phase.end)
  }

  lemma RowsOfSnoc(kernels: seq<Kernel>, next: Kernel, d: nat)
    ensures Covered(RowsOf(kernels + [next], d)) ==
            Covered(RowsOf(kernels, d)) + (if next.device == d then Instants(next.span.start, next.span.end) else {})
  {
    assert (kernels + [next])[..|kernels|] == kernels;
    CoveredSnoc(RowsOf(kernels, d), next.span);
    assert RowsOf(kernels, d) + [] == RowsOf(kernels, d);
  }

  lemma CollectNext(parts: map<nat, seq<Interval>>, kernels: seq<Kernel>, next: Kernel, phase: Interval)
    requires Collected(parts, kernels, phase)
    ensures Collected(WithPart(parts, next.device, Overlap(next.span, phase)), kernels + [next], phase)
  {
    hide RowsOf;
    var after := WithPart(parts, next.device, Overlap(next.span, phase));
    OverlapIff(next.span, phase);
    forall d: nat
      ensures d in after ==> after[d] != [] && forall iv: Interval :: iv in after[d] ==> iv.start < iv.end
      ensures Covered(if d in after then after[d] else []) ==
              Covered(RowsOf(kernels + [next], d)) * Instants(phase.start, phase.end)
    {
      RowsOfSnoc(kernels, next, d);
      if d == next.device && Overlap(next.span, phase).Some? {
        CoveredSnoc(if d in parts then parts[d] else [], Overlap(next.span, phase).value);
      }
    }
  }

  function WithPart(parts: map<nat, seq<Interval>>, device: nat, part: Option<Interval>): map<nat, seq<Interval>> {
    match part
    case None => parts
    case Some(iv) => parts[device := (if device in parts then parts[device] else []) + [iv]]
  }

  method CollectOverlaps(kernels: seq<Kernel>, phase: Interval) returns (parts: map<nat, seq<Interval>>)
    ensures Collected(parts, kernels, phase)
  {
    parts := map[];
    for i := 0 to |kernels|
      invariant Collected(parts, kernels[..i], phase)
    {
      CollectNext(parts, kernels[..i], kernels[i], phase);
      assert kernels[..i + 1] == kernels[..i] + [kernels[i]];
      parts := WithPart(parts, kernels[i].device, Overlap(kernels[i].span, phase));
    }
    assert kernels[..|kernels|] == kernels;
  }

  lemma NotEmptyCovers(intervals: seq<Interval>)
    requires intervals != [] && intervals[0].start < intervals[0].end
    ensures Covered(intervals) != {}
  {
    assert intervals[0].start in Covered(intervals);
  }

  /** The kernel summary of the exporters: the overlaps with a phase are collected per device and
      their union is taken.  For all kernel rows, inverted ones included, every device gets what the
      analyzer's clipped union gets from its rows, and only devices that are busy in the phase appear. */
  method DeviceUnions(kernels: seq<Kernel>, phase: Interval) returns (unions: map<nat, int>)
    ensures forall d: nat :: d in unions <==> Covered(RowsOf(kernels, d)) * Instants(phase.start, phase.end) != {}
    ensures forall d :: d in unions ==>
              unions[d] == |Covered(RowsOf(kernels, d)) * Instants(phase.start, phase.end)|
  {
    hide RowsOf, Covered, Instants, Deficit, Sort, Isolated;
    var parts := CollectOverlaps(kernels, phase);
    unions := map[];
    var left := parts.Keys;
    while left != {}
      invariant left <= parts.Keys && unions.Keys == parts.Keys - left
      invariant forall d :: d in unions ==>
                  unions[d] == |Covered(RowsOf(kernels, d)) * Instants(phase.start, phase.end)|
    {
      var d :| d in left;
      UnionsAgreeIff(parts[d]);
      var union := UnionDuration(parts[d]);
      unions, left := unions[d := union], left - {d};
    }
    forall d: nat ensures d in parts <==> Covered(RowsOf(kernels, d)) * Instants(phase.start, phase.end) != {} {
      if d in parts {
        NotEmptyCovers(parts[d]);
      } else {
        NothingCovered();
      }
    }
  }

  lemma NothingCovered()
    ensures Covered([]) == {}
  {
  }

  datatype Timeline = Timeline(busy: int, span: int, overlap: int, tail: int, startOffset: int)

  function Lowest(intervals: seq<Interval>): (m: int)
    requires intervals != []
    ensures forall iv :: iv in intervals ==> m <= iv.start
    ensures exists iv :: iv in intervals && iv.start == m
  {
    if |intervals| == 1 then intervals[0].start
    else
      assert intervals == [intervals[0]] + intervals[1..];
      Min(intervals[0].start, Lowest(intervals[1..]))
  }

  function Highest(intervals: seq<Interval>): (m: int)
    requires intervals != []
    ensures forall iv :: iv in intervals ==> iv.end <= m
    ensures exists iv :: iv in intervals && iv.end == m
  {
    if |intervals| == 1 then intervals[0].end
    else
      assert intervals == [intervals[0]] + intervals[1..];
      Max(intervals[0].end, Highest(intervals[1..]))
  }

  /** What a CPU range sees of the GPU activity it launched, in nanoseconds. */
  function TimelineOf(intervals: seq<Interval>, cpuStart: int, cpuEnd: int): Timeline {
    if intervals == [] then Timeline(0, 0, 0, 0, 0)
    else Timeline(
      |Covered(intervals)|,
      Highest(intervals) - Lowest(intervals),
      |Covered(intervals) * Instants(cpuStart, cpuEnd)|,
      Max(0, Highest(intervals) - cpuEnd),
      Lowest(intervals) - cpuStart)
  }

  method GpuTimeline(intervals: seq<Interval>, cpuStart: int, cpuEnd: int) returns (r: Timeline)
    ensures r == TimelineOf(intervals, cpuStart, cpuEnd)
  {
    var busy := IntervalUnion(intervals);
    if intervals == [] {
      return Timeline(busy, 0, 0, 0, 0);
    }
    var gpuStart, gpuEnd := Lowest(intervals), Highest(intervals);
    var overlap := ClippedIntervalUnion(intervals, cpuStart, cpuEnd);
    r := Timeline(busy, gpuEnd - gpuStart, overlap, Max(0, gpuEnd - cpuEnd), gpuStart - cpuStart);
  }

  /** Busy time splits into the overlap with the CPU range and what lies before its start or after
      its end: it is at most overlap plus lead-in plus tail.  It never exceeds a proper span, and
      the overlap never exceeds a proper CPU range. */
  lemma BusyParts(intervals: seq<Interval>, cpuStart: int, cpuEnd: int)
    ensures var r := TimelineOf(intervals, cpuStart, cpuEnd);
            && r.overlap <= r.busy <= r.overlap + Max(0, -r.startOffset) + r.tail
            && (r.span >= 0 ==> r.busy <= r.span)
            && (cpuStart <= cpuEnd ==> r.overlap <= cpuEnd - cpuStart)
  {
    if intervals != [] {
      var busy := Covered(intervals);
      var overlap := busy * Instants(cpuStart, cpuEnd);
      CoveredInSpan(intervals);
      OutsideWindow(busy, Lowest(intervals), Highest(intervals), cpuStart, cpuEnd);
      SubsetSize(overlap, busy);
      SubsetSize(busy, Instants(Lowest(intervals), Highest(intervals)));
      SubsetSize(overlap, Instants(cpuStart, cpuEnd));
      InstantsCount(Lowest(intervals), Highest(intervals));
      InstantsCount(cpuStart, cpuEnd);
    }
  }

  lemma CoveredInSpan(intervals: seq<Interval>)
    requires intervals != []
    ensures Covered(intervals) <= Instants(Lowest(intervals), Highest(intervals))
  {
    forall t | t in Covered(intervals) ensures Lowest(intervals) <= t < Highest(intervals) {
      CoveredIff(intervals, t);
      var i :| 0 <= i < |intervals| && intervals[i].start <= t < intervals[i].end;
      assert intervals[i] in intervals;
    }
  }

  /** Instants between low and high that a window misses lie before its start or after its end. */
  lemma OutsideWindow(busy: set<int>, low: int, high: int, start: int, end: int)
    requires busy <= Instants(low, high)
    ensures |busy| <= |busy * Instants(start, end)| + Max(0, start - low) + Max(0, high - end)
  {
    var inside, lead, tail := busy * Instants(start, end), Instants(low, start), Instants(end, high);
    InstantsCount(low, start);
    InstantsCount(end, high);
    SubsetSize(busy, inside + lead + tail);
    assert |inside + lead + tail| <= |inside + lead| + |tail| <= |inside| + |lead| + |tail|;
  }
}
