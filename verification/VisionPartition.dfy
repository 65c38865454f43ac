/** Error statistics of benchmarks/diagnose_vision_partition.py: images are dealt to shards, each shard
    runs image-aligned microbatches, and the statistics of all pieces are accumulated. */
module VisionPartition {
  import opened Wrappers
  import opened Paging

  // ----- row ids

  function Range(a: nat, b: nat): (r: seq<nat>)
    requires a <= b
    ensures |r| == b - a && forall k :: 0 <= k < |r| ==> r[k] == a + k
  {
    seq(b - a, k requires 0 <= k => a + k)
  }

  /** First row of image i when the images lie one after the other. */
  function Offset(counts: seq<nat>, i: nat): nat
    requires i <= |counts|
  {
    if i == 0 then 0 else Offset(counts, i - 1) + counts[i - 1]
  }

  predicate Images(images: seq<nat>, n: nat) { forall k :: 0 <= k < |images| ==> images[k] < n }

  /** The rows of some images, in the order of the list. */
  function RowIds(counts: seq<nat>, images: seq<nat>): seq<nat>
    requires Images(images, |counts|)
  {
    if images == [] then []
    else
      var i := images[|images| - 1];
      RowIds(counts, images[..|images| - 1]) + RowsOfImage(counts, i)
  }

  function RowsOfImage(counts: seq<nat>, i: nat): seq<nat>
    requires i < |counts|
  {
    Range(Offset(counts, i), Offset(counts, i) + counts[i])
  }

  lemma RowIdsSnoc(counts: seq<nat>, a: seq<nat>, i: nat)
    requires Images(a, |counts|) && i < |counts|
    ensures RowIds(counts, a + [i]) == RowIds(counts, a) + RowsOfImage(counts, i)
  {
    assert (a + [i])[..|a|] == a;
  }

  lemma {:induction false} RowIdsConcat(counts: seq<nat>, a: seq<nat>, b: seq<nat>)
    requires Images(a, |counts|) && Images(b, |counts|)
    ensures Images(a + b, |counts|) && RowIds(counts, a + b) == RowIds(counts, a) + RowIds(counts, b)
  {
    hide RowIds, RowsOfImage;
    if b == [] {
      assert a + b == a;
      NoRows(counts);
    } else {
      var rest, last := b[..|b| - 1], b[|b| - 1];
      RowIdsConcat(counts, a, rest);
      RowIdsSnoc(counts, a + rest, last);
      RowIdsSnoc(counts, rest, last);
      assert a + b == (a + rest) + [last] && b == rest + [last];
    }
  }

  lemma NoRows(counts: seq<nat>)
    ensures RowIds(counts, []) == []
  {
  }

  // ----- merged rows

  /** Merged rows of every image: a merge area of patches becomes one row. */
  function Merged(counts: seq<nat>, area: nat): (m: seq<nat>)
    requires area > 0
    ensures |m| == |counts|
  {
    seq(|counts|, i requires 0 <= i < |counts| => PageOf(counts[i], area))
  }

  predicate Divisible(counts: seq<nat>, area: nat)
    requires area > 0
  {
    forall i :: 0 <= i < |counts| ==> counts[i] % area == 0
  }

  lemma {:induction false} OffsetsMerge(counts: seq<nat>, area: nat, i: nat)
    requires area > 0 && Divisible(counts, area) && i <= |counts|
    ensures Offset(counts, i) == Start(Offset(Merged(counts, area), i), area)
  {
    if i > 0 {
      OffsetsMerge(counts, area, i - 1);
      PageOfIsQuotient(counts[i - 1], area);
      StartAdds(Offset(Merged(counts, area), i - 1), PageOf(counts[i - 1], area), area);
    }
  }

  lemma PageOfSum(a: nat, j: nat, area: nat)
    requires area > 0
    ensures PageOf(Start(a, area) + j, area) == a + PageOf(j, area)
  {
    PageOfBounds(j, area);
    PageOfBounds(Start(a, area) + j, area);
    StartAdds(a, PageOf(j, area), area);
    PageIsUnique(PageOf(Start(a, area) + j, area), a + PageOf(j, area), Start(a, area) + j, area);
  }

  /** The rows of the last image come last. */
  lemma RowIdsLast(counts: seq<nat>, images: seq<nat>, k: nat)
    requires Images(images, |counts|) && images != []
    ensures var rest, i := images[..|images| - 1], images[|images| - 1];
            && |RowIds(counts, images)| == |RowIds(counts, rest)| + counts[i]
            && (k < |RowIds(counts, images)| ==>
                  RowIds(counts, images)[k]
                  == if k < |RowIds(counts, rest)| then RowIds(counts, rest)[k]
                    else Offset(counts, i) + k - |RowIds(counts, rest)|)
  {
  }

  lemma {:induction false} MergedLength(counts: seq<nat>, area: nat, images: seq<nat>)
    requires area > 0 && Divisible(counts, area) && Images(images, |counts|)
    ensures |RowIds(counts, images)| == Start(|RowIds(Merged(counts, area), images)|, area)
  {
    if images != [] {
      MergedLength(counts, area, images[..|images| - 1]);
      AlignedImage(counts, area, images[..|images| - 1], images[|images| - 1], 0);
      RowIdsLast(counts, images, 0);
      RowIdsLast(Merged(counts, area), images, 0);
    }
  }

  /** Merged rows stay aligned with the patches they were merged from, whatever the images. */
  lemma {:induction false} MergedAligned(counts: seq<nat>, area: nat, images: seq<nat>, k: nat)
    requires area > 0 && Divisible(counts, area) && Images(images, |counts|) && k < |RowIds(counts, images)|
    ensures PageOf(k, area) < |RowIds(Merged(counts, area), images)|
    ensures RowIds(Merged(counts, area), images)[PageOf(k, area)] == PageOf(RowIds(counts, images)[k], area)
  {
    hide RowIds, Merged, Divisible;
    NotEmpty(counts, images);
    var rest, i := images[..|images| - 1], images[|images| - 1];
    RowIdsLast(counts, images, k);
    RowIdsLast(Merged(counts, area), images, PageOf(k, area));
    if k < |RowIds(counts, rest)| {
      MergedAligned(counts, area, rest, k);
    } else {
      MergedLength(counts, area, rest);
      AlignedImage(counts, area, rest, i, k);
    }
  }

  lemma NotEmpty(counts: seq<nat>, images: seq<nat>)
    requires Images(images, |counts|) && |RowIds(counts, images)| > 0
    ensures images != []
  {
  }

  lemma AlignedImage(counts: seq<nat>, area: nat, rest: seq<nat>, i: nat, k: nat)
    requires area > 0 && Divisible(counts, area) && Images(rest, |counts|) && i < |counts|
    requires |RowIds(counts, rest)| == Start(|RowIds(Merged(counts, area), rest)|, area)
    ensures |RowIds(counts, rest)| + counts[i]
            == Start(|RowIds(Merged(counts, area), rest)| + Merged(counts, area)[i], area)
    ensures |RowIds(counts, rest)| <= k < |RowIds(counts, rest)| + counts[i] ==>
              var j := k - |RowIds(counts, rest)|;
              && PageOf(k, area) == |RowIds(Merged(counts, area), rest)| + PageOf(j, area)
              && PageOf(j, area) < Merged(counts, area)[i]
              && Offset(Merged(counts, area), i) + PageOf(j, area) == PageOf(Offset(counts, i) + j, area)
  {
    var before := |RowIds(Merged(counts, area), rest)|;
    PageOfIsQuotient(counts[i], area);
    StartAdds(before, PageOf(counts[i], area), area);
    if |RowIds(counts, rest)| <= k < |RowIds(counts, rest)| + counts[i] {
      var j := k - |RowIds(counts, rest)|;
      PageOfSum(before, j, area);
      OffsetsMerge(counts, area, i);
      PageOfSum(Offset(Merged(counts, area), i), j, area);
      PageOfBounds(j, area);
      StartReflects(PageOf(j, area), PageOf(counts[i], area), area);
    }
  }

  // ----- every row exactly once

  lemma {:induction false} RangesJoin(a: nat, b: nat, c: nat)
    requires a <= b <= c
    ensures Range(a, b) + Range(b, c) == Range(a, c)
  {
  }

  lemma {:induction false} AllImagesInOrder(counts: seq<nat>, n: nat)
    requires n <= |counts|
    ensures RowIds(counts, Range(0, n)) == Range(0, Offset(counts, n))
  {
    if n > 0 {
      AllImagesInOrder(counts, n - 1);
      assert Range(0, n)[..n - 1] == Range(0, n - 1);
      RangesJoin(0, Offset(counts, n - 1), Offset(counts, n));
    }
  }

  /** Lists with the same members: the last of one is somewhere in the other. */
  lemma TakeOut(a: seq<nat>, b: seq<nat>) returns (p: nat)
    requires a != [] && multiset(a) == multiset(b)
    ensures p < |b| && b[p] == a[|a| - 1] && b == b[..p] + [b[p]] + b[p + 1..]
    ensures multiset(a[..|a| - 1]) == multiset(b[..p] + b[p + 1..])
  {
    var last := a[|a| - 1];
    assert a == a[..|a| - 1] + [last];
    assert last in multiset(b);
    p :| 0 <= p < |b| && b[p] == last;
    assert b == b[..p] + [last] + b[p + 1..];
    assert multiset(b) == multiset(b[..p] + b[p + 1..]) + multiset{last};
    assert multiset(a[..|a| - 1]) == multiset(a) - multiset{last};
  }

  /** The rows of a list of images depend on its order only in their order. */
  lemma {:induction false} RowIdsPermute(counts: seq<nat>, a: seq<nat>, b: seq<nat>)
    requires Images(a, |counts|) && Images(b, |counts|) && multiset(a) == multiset(b)
    ensures multiset(RowIds(counts, a)) == multiset(RowIds(counts, b))
    decreases |a|
  {
    hide RowIds;
    if a == [] {
      assert |multiset(b)| == 0;
    } else {
      var rest, last := a[..|a| - 1], a[|a| - 1];
      var p := TakeOut(a, b);
      var before, after := b[..p], b[p + 1..];
      RowIdsPermute(counts, rest, before + after);
      RowIdsConcat(counts, before, after);
      RowIdsConcat(counts, before, [last]);
      RowIdsConcat(counts, before + [last], after);
      RowIdsConcat(counts, rest, [last]);
      assert a == rest + [last];
    }
  }

  /** Dealing every image to exactly one place makes the row ids cover every row exactly once. */
  lemma RowsCovered(counts: seq<nat>, dealt: seq<nat>)
    requires Images(dealt, |counts|) && multiset(dealt) == multiset(Range(0, |counts|))
    ensures multiset(RowIds(counts, dealt)) == multiset(Range(0, Offset(counts, |counts|)))
  {
    RowIdsPermute(counts, dealt, Range(0, |counts|));
    AllImagesInOrder(counts, |counts|);
  }

  // ----- statistics

  /** The accumulated statistics of some rows, with exact sums. */
  datatype Totals = Totals(elements: nat, unequal: nat, nonfinite: nat, maxAbs: real,
                           sumAbs: real, sumSquaredError: real, sumSquaredReference: real)

  const ZERO := Totals(0, 0, 0, 0.0, 0.0, 0.0, 0.0)

  function Add(a: Totals, b: Totals): Totals {
    Totals(a.elements + b.elements, a.unequal + b.unequal, a.nonfinite + b.nonfinite,
           if a.maxAbs < b.maxAbs then b.maxAbs else a.maxAbs,
           a.sumAbs + b.sumAbs, a.sumSquaredError + b.sumSquaredError, a.sumSquaredReference + b.sumSquaredReference)
  }

  /** The statistics of a tensor with these rows; `row` gives those of a single row. */
  function Sum(ids: seq<nat>, row: nat -> Totals): Totals {
    if ids == [] then ZERO else Add(Sum(ids[..|ids| - 1], row), row(ids[|ids| - 1]))
  }

  ghost predicate Absolute(row: nat -> Totals) { forall i: nat :: row(i).maxAbs >= 0.0 }

  lemma {:induction false} SumIsAbsolute(ids: seq<nat>, row: nat -> Totals)
    requires Absolute(row)
    ensures Sum(ids, row).maxAbs >= 0.0
  {
    if ids != [] { SumIsAbsolute(ids[..|ids| - 1], row); }
  }

  lemma AddAssociates(a: Totals, b: Totals, c: Totals)
    ensures Add(Add(a, b), c) == Add(a, Add(b, c)) && Add(Add(a, b), c) == Add(Add(a, c), b)
  {
  }

  lemma AddZero(a: Totals)
    requires a.maxAbs >= 0.0
    ensures Add(a, ZERO) == a && Add(ZERO, a) == a
  {
  }

  lemma SumSnoc(ids: seq<nat>, i: nat, row: nat -> Totals)
    ensures Sum(ids + [i], row) == Add(Sum(ids, row), row(i))
  {
    assert (ids + [i])[..|ids|] == ids;
  }

  lemma SumNothing(row: nat -> Totals)
    ensures Sum([], row) == ZERO
  {
  }

  lemma {:induction false} SumConcat(a: seq<nat>, b: seq<nat>, row: nat -> Totals)
    requires Absolute(row)
    ensures Sum(a + b, row) == Add(Sum(a, row), Sum(b, row))
  {
    hide Sum, Add;
    if b == [] {
      assert a + b == a;
      SumNothing(row);
      SumIsAbsolute(a, row);
      AddZero(Sum(a, row));
    } else {
      var rest, last := b[..|b| - 1], b[|b| - 1];
      SumConcat(a, rest, row);
      SumSnoc(a + rest, last, row);
      SumSnoc(rest, last, row);
      AddAssociates(Sum(a, row), Sum(rest, row), row(last));
      assert a + b == (a + rest) + [last] && b == rest + [last];
    }
  }

  /** The statistics do not depend on the order of the rows. */
  lemma {:induction false} SumPermutes(a: seq<nat>, b: seq<nat>, row: nat -> Totals)
    requires multiset(a) == multiset(b) && Absolute(row)
    ensures Sum(a, row) == Sum(b, row)
    decreases |a|
  {
    hide Sum, Add;
    if a == [] {
      assert |multiset(b)| == 0;
    } else {
      var rest, last := a[..|a| - 1], a[|a| - 1];
      var p := TakeOut(a, b);
      var before, after := b[..p], b[p + 1..];
      SumPermutes(rest, before + after, row);
      SumConcat(before, after, row);
      SumSnoc(before, last, row);
      SumConcat(before + [last], after, row);
      SumSnoc(rest, last, row);
      AddAssociates(Sum(before, row), Sum(after, row), row(last));
      assert a == rest + [last];
    }
  }

  // ----- the run over all shards

  function Flat<T>(lists: seq<seq<T>>): seq<T> {
    if lists == [] then [] else Flat(lists[..|lists| - 1]) + lists[|lists| - 1]
  }

  lemma MergedBounds(counts: seq<nat>, area: nat, i: nat)
    requires area > 0 && Divisible(counts, area) && i <= |counts|
    ensures PageOf(Offset(counts, i), area) == Offset(Merged(counts, area), i)
  {
    OffsetsMerge(counts, area, i);
    PageOfSum(Offset(Merged(counts, area), i), 0, area);
  }

  /** The merged rows of an image as the program computes them: between quotients of patch offsets. */
  function MergedRows(counts: seq<nat>, area: nat, i: nat): (r: seq<nat>)
    requires area > 0 && Divisible(counts, area) && i < |counts|
    ensures r == RowsOfImage(Merged(counts, area), i)
  {
    MergedBounds(counts, area, i);
    MergedBounds(counts, area, i + 1);
    Range(PageOf(Offset(counts, i), area), PageOf(Offset(counts, i + 1), area))
  }

  function MergedIds(counts: seq<nat>, area: nat, images: seq<nat>): seq<nat>
    requires area > 0 && Divisible(counts, area) && Images(images, |counts|)
  {
    if images == [] then []
    else MergedIds(counts, area, images[..|images| - 1]) + MergedRows(counts, area, images[|images| - 1])
  }

  lemma {:induction false} MergedIdsAre(counts: seq<nat>, area: nat, images: seq<nat>)
    requires area > 0 && Divisible(counts, area) && Images(images, |counts|)
    ensures MergedIds(counts, area, images) == RowIds(Merged(counts, area), images)
  {
    hide Divisible, Merged, MergedRows, RowIds, RowsOfImage;
    if images != [] {
      var rest, i := images[..|images| - 1], images[|images| - 1];
      MergedIdsAre(counts, area, rest);
      RowIdsSnoc(Merged(counts, area), rest, i);
      assert images == rest + [i];
    } else {
      NoRows(Merged(counts, area));
    }
  }

  /** A slice of a shard's ids at the bounds of a microbatch is the ids of the microbatch's images. */
  lemma SliceIsBatch(counts: seq<nat>, before: seq<nat>, images: seq<nat>, after: seq<nat>)
    requires Images(before, |counts|) && Images(images, |counts|) && Images(after, |counts|)
    ensures var all, start := before + images + after, |RowIds(counts, before)|;
            && Images(all, |counts|) && start + |RowIds(counts, images)| <= |RowIds(counts, all)|
            && RowIds(counts, all)[start..start + |RowIds(counts, images)|] == RowIds(counts, images)
  {
    hide RowIds;
    RowIdsConcat(counts, before, images);
    RowIdsConcat(counts, before + images, after);
  }

  function Accumulated(aggregate: Option<Totals>, more: Totals): Option<Totals> {
    match aggregate case None => Some(more) case Some(a) => Some(Add(a, more))
  }

  /** After some microbatches, whose images were `done` in this order: the accumulated statistics are
      those of the rows of these images. */
  ghost predicate Tallied(aggregate: Option<Totals>, counts: seq<nat>, done: seq<nat>, row: nat -> Totals,
                          started: bool) {
    && Images(done, |counts|)
    && aggregate == (if started then Some(Sum(RowIds(counts, done), row)) else None)
    && (!started ==> done == [])
  }

  lemma TallyMore(aggregate: Option<Totals>, counts: seq<nat>, done: seq<nat>, row: nat -> Totals, started: bool,
                  images: seq<nat>)
    requires Tallied(aggregate, counts, done, row, started) && Images(images, |counts|) && Absolute(row)
    ensures Tallied(Accumulated(aggregate, Sum(RowIds(counts, images), row)), counts, done + images, row, true)
  {
    RowIdsConcat(counts, done, images);
    SumConcat(RowIds(counts, done), RowIds(counts, images), row);
    assert [] + images == images;
  }

  lemma FlatNext<T>(lists: seq<seq<T>>, k: nat)
    requires k < |lists|
    ensures Flat(lists[..k + 1]) == Flat(lists[..k]) + lists[k]
    ensures Flat(lists) == Flat(lists[..k]) + lists[k] + Flat(lists[k + 1..])
  {
    assert lists[..k + 1][..k] == lists[..k];
    FlatConcat(lists[..k + 1], lists[k + 1..]);
    assert lists == lists[..k + 1] + lists[k + 1..];
  }

  lemma FlatSnoc<T>(lists: seq<seq<T>>, last: seq<T>)
    ensures Flat(lists + [last]) == Flat(lists) + last && Flat<T>([]) == []
  {
    assert (lists + [last])[..|lists|] == lists;
  }

  lemma {:induction false} FlatConcat<T>(a: seq<seq<T>>, b: seq<seq<T>>)
    ensures Flat(a + b) == Flat(a) + Flat(b)
  {
    hide Flat;
    if b == [] {
      assert a + b == a;
      FlatSnoc<T>([], []);
    } else {
      var rest, last := b[..|b| - 1], b[|b| - 1];
      FlatConcat(a, rest);
      FlatSnoc(a + rest, last);
      FlatSnoc(rest, last);
      assert a + b == (a + rest) + [last] && b == rest + [last];
    }
  }

  /** One shard: its microbatches cut the row ids of its images at their bounds. */
  method RunShard(counts: seq<nat>, area: nat, batches: seq<seq<nat>>, patch: nat -> Totals, merged: nat -> Totals,
                  rawBefore: Option<Totals>, outBefore: Option<Totals>, ghost done: seq<nat>, ghost started: bool)
    returns (raw: Option<Totals>, out: Option<Totals>)
    requires area > 0 && Divisible(counts, area) && Images(Flat(batches), |counts|) && Absolute(patch)
    requires Absolute(merged)
    requires Tallied(rawBefore, counts, done, patch, started)
    requires Tallied(outBefore, Merged(counts, area), done, merged, started)
    ensures Tallied(raw, counts, done + Flat(batches), patch, started || batches != [])
    ensures Tallied(out, Merged(counts, area), done + Flat(batches), merged, started || batches != [])
  {
    hide Tallied, RowIds, Merged, Divisible, Sum, Accumulated, PageOf;
    raw, out := rawBefore, outBefore;
    var patchIds, mergedIds := RowIds(counts, Flat(batches)), MergedIds(counts, area, Flat(batches));
    MergedIdsAre(counts, area, Flat(batches));
    var k, start := 0, 0;
    assert done + Flat(batches[..0]) == done;
    NoRows(counts);
    while k < |batches|
      invariant k <= |batches| && Images(Flat(batches[..k]), |counts|) && start == |RowIds(counts, Flat(batches[..k]))|
      invariant Tallied(raw, counts, done + Flat(batches[..k]), patch, started || k > 0)
      invariant Tallied(out, Merged(counts, area), done + Flat(batches[..k]), merged, started || k > 0)
    {
      ghost var before := Flat(batches[..k]);
      BatchBounds(counts, area, batches, k);
      var end := start + |RowIds(counts, batches[k])|;
      var rawIds, outputIds := patchIds[start..end], mergedIds[PageOf(start, area)..PageOf(end, area)];
      TallyMore(raw, counts, done + before, patch, started || k > 0, batches[k]);
      TallyMore(out, Merged(counts, area), done + before, merged, started || k > 0, batches[k]);
      raw, out := Accumulated(raw, Sum(rawIds, patch)), Accumulated(out, Sum(outputIds, merged));
      assert done + before + batches[k] == done + (before + batches[k]);
      k, start := k + 1, end;
    }
    assert batches[..k] == batches;
  }

  /** The bounds of microbatch k cut out its own patch rows and, divided by the merge area, its own
      merged rows. */
  lemma BatchBounds(counts: seq<nat>, area: nat, batches: seq<seq<nat>>, k: nat)
    requires area > 0 && Divisible(counts, area) && Images(Flat(batches), |counts|) && k < |batches|
    ensures Images(Flat(batches[..k]), |counts|) && Images(batches[k], |counts|)
    ensures Flat(batches[..k + 1]) == Flat(batches[..k]) + batches[k]
    ensures Images(Flat(batches[..k + 1]), |counts|)
    ensures var start := |RowIds(counts, Flat(batches[..k]))|;
            var end := start + |RowIds(counts, batches[k])|;
            && end == |RowIds(counts, Flat(batches[..k + 1]))| <= |RowIds(counts, Flat(batches))|
            && RowIds(counts, Flat(batches))[start..end] == RowIds(counts, batches[k])
            && PageOf(start, area) <= PageOf(end, area) <= |RowIds(Merged(counts, area), Flat(batches))|
            && RowIds(Merged(counts, area), Flat(batches))[PageOf(start, area)..PageOf(end, area)]
              == RowIds(Merged(counts, area), batches[k])
  {
    hide RowIds, Merged, Divisible, PageOf;
    FlatNext(batches, k);
    var before, images, after := Flat(batches[..k]), batches[k], Flat(batches[k + 1..]);
    FlatParts(before, images, after, |counts|);
    SliceIsBatch(counts, before, images, after);
    SliceIsBatch(Merged(counts, area), before, images, after);
    RowIdsConcat(counts, before, images);
    BoundsMerge(counts, area, before, images);
  }

  lemma FlatParts(a: seq<nat>, b: seq<nat>, c: seq<nat>, n: nat)
    requires Images(a + b + c, n)
    ensures Images(a, n) && Images(b, n) && Images(c, n) && Images(a + b, n)
  {
    assert forall i :: 0 <= i < |a| ==> a[i] == (a + b + c)[i];
    assert forall i :: 0 <= i < |b| ==> b[i] == (a + b + c)[|a| + i];
    assert forall i :: 0 <= i < |c| ==> c[i] == (a + b + c)[|a + b| + i];
  }

  lemma BoundsMerge(counts: seq<nat>, area: nat, before: seq<nat>, images: seq<nat>)
    requires area > 0 && Divisible(counts, area) && Images(before, |counts|) && Images(images, |counts|)
    ensures PageOf(|RowIds(counts, before)|, area) == |RowIds(Merged(counts, area), before)|
    ensures PageOf(|RowIds(counts, before)| + |RowIds(counts, images)|, area)
         == |RowIds(Merged(counts, area), before)| + |RowIds(Merged(counts, area), images)|
  {
    hide RowIds, Merged, Divisible;
    var m := Merged(counts, area);
    MergedLength(counts, area, before);
    MergedLength(counts, area, images);
    PageOfSum(|RowIds(m, before)|, 0, area);
    StartAdds(|RowIds(m, before)|, |RowIds(m, images)|, area);
    PageOfSum(|RowIds(m, before)| + |RowIds(m, images)|, 0, area);
  }

  /** All images, in the order in which shards and microbatches run them. */
  function Dealt(shards: seq<seq<seq<nat>>>): seq<nat> {
    if shards == [] then [] else Dealt(shards[..|shards| - 1]) + Flat(shards[|shards| - 1])
  }

  lemma {:induction false} DealtParts(shards: seq<seq<seq<nat>>>, n: nat, k: nat)
    requires Images(Dealt(shards), n) && k < |shards|
    ensures Images(Flat(shards[k]), n)
  {
    var rest := shards[..|shards| - 1];
    FlatParts(Dealt(rest), Flat(shards[|shards| - 1]), [], n);
    assert Dealt(rest) + Flat(shards[|shards| - 1]) + [] == Dealt(shards);
    if k < |rest| { DealtParts(rest, n, k); }
  }

  lemma NothingTallied(counts: seq<nat>, row: nat -> Totals)
    ensures Tallied(None, counts, [], row, false)
  {
  }

  lemma TallyOfAll(aggregate: Option<Totals>, counts: seq<nat>, done: seq<nat>, row: nat -> Totals)
    requires Tallied(aggregate, counts, done, row, true) && multiset(done) == multiset(Range(0, |counts|))
    requires Absolute(row)
    ensures aggregate == Some(Sum(Range(0, Offset(counts, |counts|)), row))
  {
    RowsCovered(counts, done);
    SumPermutes(RowIds(counts, done), Range(0, Offset(counts, |counts|)), row);
  }

  /** The statistics of a run over any shards and any image-aligned microbatches are those of the whole
      tensor, for the patch rows and for the merged rows. */
  method RunCase(counts: seq<nat>, area: nat, shards: seq<seq<seq<nat>>>, patch: nat -> Totals, merged: nat -> Totals)
    returns (raw: Option<Totals>, out: Option<Totals>)
    requires area > 0 && Divisible(counts, area) && Absolute(patch) && Absolute(merged)
    requires Images(Dealt(shards), |counts|) && multiset(Dealt(shards)) == multiset(Range(0, |counts|)) && |counts| > 0
    ensures raw == Some(Sum(Range(0, Offset(counts, |counts|)), patch))
    ensures out == Some(Sum(Range(0, Offset(Merged(counts, area), |counts|)), merged))
  {
    hide Tallied, Sum, Merged, Divisible;
    raw, out := None, None;
    NothingTallied(counts, patch);
    NothingTallied(Merged(counts, area), merged);
    ghost var started := false;
    var k := 0;
    while k < |shards|
      invariant k <= |shards| && (!started ==> Dealt(shards[..k]) == [])
      invariant Tallied(raw, counts, Dealt(shards[..k]), patch, started)
      invariant Tallied(out, Merged(counts, area), Dealt(shards[..k]), merged, started)
    {
      assert shards[..k + 1][..k] == shards[..k];
      DealtParts(shards, |counts|, k);
      if shards[k] != [] {
        raw, out := RunShard(counts, area, shards[k], patch, merged, raw, out, Dealt(shards[..k]), started);
        started := true;
      } else {
        assert Dealt(shards[..k]) + [] == Dealt(shards[..k]);
      }
      k := k + 1;
    }
    assert shards[..k] == shards;
    assert |multiset(Range(0, |counts|))| == |counts|;
    TallyOfAll(raw, counts, Dealt(shards), patch);
    TallyOfAll(out, Merged(counts, area), Dealt(shards), merged);
  }
}
