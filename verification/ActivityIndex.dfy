/** The activity index of benchmarks/analyze_nsys.py against the plain scans it stands for: rows in a
    time window found by bisection, kernels found by correlation id, and totals by category. */
module ActivityIndex {
  import opened Wrappers
  import opened FiniteSets

  datatype Row = Row(start: int, end: int, correlation: Option<int>, name: string)

  // ----- rows inside a window

  function Filter(rows: seq<Row>, keep: Row -> bool): seq<Row> {
    if rows == [] then []
    else Filter(rows[..|rows| - 1], keep) + (if keep(rows[|rows| - 1]) then [rows[|rows| - 1]] else [])
  }

  ghost predicate ByStart(rows: seq<Row>) { forall i, j :: 0 <= i <= j < |rows| ==> rows[i].start <= rows[j].start }

  /** The library's bisection on a sorted list: how many rows start before x, or at x and before. */
  function BisectLeft(rows: seq<Row>, x: int): (k: nat)
    ensures k <= |rows| && (forall i :: 0 <= i < k ==> rows[i].start < x) && (k < |rows| ==> x <= rows[k].start)
  {
    if rows == [] || x <= rows[0].start then 0 else 1 + BisectLeft(rows[1..], x)
  }

  function BisectRight(rows: seq<Row>, x: int): (k: nat)
    ensures k <= |rows| && (forall i :: 0 <= i < k ==> rows[i].start <= x) && (k < |rows| ==> x < rows[k].start)
  {
    if rows == [] || x < rows[0].start then 0 else 1 + BisectRight(rows[1..], x)
  }

  function WithinRange(rows: seq<Row>, start: int, end: int): seq<Row> {
    var first, last := BisectLeft(rows, start), BisectRight(rows, end);
    if first <= last then Filter(rows[first..last], EndsBy(end)) else []
  }

  function EndsBy(end: int): Row -> bool { (r: Row) => r.end <= end }

  function Inside(start: int, end: int): Row -> bool { (r: Row) => start <= r.start <= end && r.end <= end }

  lemma {:induction false} FilterNone(rows: seq<Row>, keep: Row -> bool)
    requires forall i :: 0 <= i < |rows| ==> !keep(rows[i])
    ensures Filter(rows, keep) == []
  {
    if rows != [] { FilterNone(rows[..|rows| - 1], keep); }
  }

  lemma {:induction false} FilterSame(rows: seq<Row>, keep: Row -> bool, also: Row -> bool)
    requires forall i :: 0 <= i < |rows| ==> keep(rows[i]) == also(rows[i])
    ensures Filter(rows, keep) == Filter(rows, also)
  {
    if rows != [] { FilterSame(rows[..|rows| - 1], keep, also); }
  }

  lemma {:induction false} FilterConcat(a: seq<Row>, b: seq<Row>, keep: Row -> bool)
    ensures Filter(a + b, keep) == Filter(a, keep) + Filter(b, keep)
  {
    if b == [] {
      assert a + b == a;
    } else {
      FilterConcat(a, b[..|b| - 1], keep);
      assert (a + b)[..|a + b| - 1] == a + b[..|b| - 1];
    }
  }

  /** A filter that keeps nothing outside a window is a filter of the window. */
  lemma FilterWindow(rows: seq<Row>, keep: Row -> bool, also: Row -> bool, first: nat, last: nat)
    requires first <= last <= |rows|
    requires forall i :: 0 <= i < |rows| ==> keep(rows[i]) == (first <= i < last && also(rows[i]))
    ensures Filter(rows, keep) == Filter(rows[first..last], also)
  {
    hide Filter;
    var early, window, late := rows[..first], rows[first..last], rows[last..];
    FilterNone(early, keep);
    FilterNone(late, keep);
    FilterSame(window, keep, also);
    FilterConcat(early, window, keep);
    FilterConcat(early + window, late, keep);
    assert rows == early + window + late;
  }

  /** The window found by bisection holds exactly the rows that a scan of all rows would keep, in the
      same order, for every window, also an inverted one. */
  lemma WithinRangeIsScan(rows: seq<Row>, start: int, end: int)
    requires ByStart(rows)
    ensures WithinRange(rows, start, end) == Filter(rows, Inside(start, end))
  {
    hide Filter, BisectLeft, BisectRight;
    var first, last := BisectLeft(rows, start), BisectRight(rows, end);
    forall i | 0 <= i < |rows| ensures Inside(start, end)(rows[i]) == (first <= i < last && EndsBy(end)(rows[i])) {
      assert i >= first ==> rows[first].start <= rows[i].start;
      assert i >= last ==> rows[last].start <= rows[i].start;
    }
    if first <= last {
      FilterWindow(rows, Inside(start, end), EndsBy(end), first, last);
    } else {
      FilterNone(rows, Inside(start, end));
    }
  }

  // ----- rows by correlation id

  function Of(id: int): Row -> bool { (r: Row) => r.correlation == Some(id) }

  function OfAny(ids: set<int>): Row -> bool { (r: Row) => r.correlation.Some? && r.correlation.value in ids }

  /** One pass over the rows; rows without an id are left out. */
  method GroupByCorrelation(rows: seq<Row>) returns (grouped: map<int, seq<Row>>)
    ensures forall id :: id in grouped ==> grouped[id] == Filter(rows, Of(id)) && grouped[id] != []
    ensures forall id: int :: id !in grouped ==> Filter(rows, Of(id)) == []
  {
    grouped := map[];
    var k := 0;
    while k < |rows|
      invariant k <= |rows|
      invariant forall id :: id in grouped ==> grouped[id] == Filter(rows[..k], Of(id)) && grouped[id] != []
      invariant forall id: int :: id !in grouped ==> Filter(rows[..k], Of(id)) == []
    {
      assert rows[..k + 1][..k] == rows[..k];
      match rows[k].correlation {
        case None =>
        case Some(id) => grouped := grouped[id := (if id in grouped then grouped[id] else []) + [rows[k]]];
      }
      k := k + 1;
    }
    assert rows[..k] == rows;
  }

  /** The rows of every id of a list, one id after the other. */
  function Lookup(rows: seq<Row>, ids: seq<int>): seq<Row> {
    if ids == [] then [] else Lookup(rows, ids[..|ids| - 1]) + Filter(rows, Of(ids[|ids| - 1]))
  }

  method RowsForCorrelations(grouped: map<int, seq<Row>>, ids: seq<int>, ghost rows: seq<Row>) returns (found: seq<Row>)
    requires forall id :: id in grouped ==> grouped[id] == Filter(rows, Of(id))
    requires forall id: int :: id !in grouped ==> Filter(rows, Of(id)) == []
    ensures found == Lookup(rows, ids)
  {
    found := [];
    var k := 0;
    while k < |ids|
      invariant k <= |ids| && found == Lookup(rows, ids[..k])
    {
      assert ids[..k + 1][..k] == ids[..k];
      found := found + (if ids[k] in grouped then grouped[ids[k]] else []);
      k := k + 1;
    }
    assert ids[..k] == ids;
  }

  /** Total duration. */
  function Time(rows: seq<Row>): int {
    if rows == [] then 0 else Time(rows[..|rows| - 1]) + rows[|rows| - 1].end - rows[|rows| - 1].start
  }

  /** What the last row adds to a filtered list. */
  lemma FilterLast(rows: seq<Row>, keep: Row -> bool)
    requires rows != []
    ensures var rest, r := rows[..|rows| - 1], rows[|rows| - 1];
            && multiset(Filter(rows, keep)) == multiset(Filter(rest, keep))
              + (if keep(r) then multiset{r} else multiset{})
            && |Filter(rows, keep)| == |Filter(rest, keep)| + (if keep(r) then 1 else 0)
            && Time(Filter(rows, keep)) == Time(Filter(rest, keep)) + (if keep(r) then r.end - r.start else 0)
  {
    var rest, r := rows[..|rows| - 1], rows[|rows| - 1];
    if keep(r) {
      assert Filter(rows, keep)[..|Filter(rest, keep)|] == Filter(rest, keep);
    } else {
      assert Filter(rest, keep) + [] == Filter(rest, keep);
    }
  }

  lemma {:induction false} OneMoreId(rows: seq<Row>, ids: set<int>, id: int)
    requires id !in ids
    ensures multiset(Filter(rows, OfAny(ids + {id}))) == multiset(Filter(rows, OfAny(ids)))
            + multiset(Filter(rows, Of(id)))
    ensures Time(Filter(rows, OfAny(ids + {id}))) == Time(Filter(rows, OfAny(ids))) + Time(Filter(rows, Of(id)))
  {
    hide Filter, Time;
    if rows == [] {
      FilterNone(rows, OfAny(ids + {id}));
      FilterNone(rows, OfAny(ids));
      FilterNone(rows, Of(id));
      NoTime();
    } else {
      OneMoreId(rows[..|rows| - 1], ids, id);
      FilterLast(rows, OfAny(ids + {id}));
      FilterLast(rows, OfAny(ids));
      FilterLast(rows, Of(id));
    }
  }

  lemma NoTime()
    ensures Time([]) == 0
  {
  }

  lemma {:induction false} TimeConcat(a: seq<Row>, b: seq<Row>)
    ensures Time(a + b) == Time(a) + Time(b)
  {
    if b == [] {
      assert a + b == a;
    } else {
      TimeConcat(a, b[..|b| - 1]);
      assert (a + b)[..|a + b| - 1] == a + b[..|b| - 1];
    }
  }

  /** Looking up different ids finds each row that carries one of them exactly once, as the scan of all
      rows does, and so the same total time. */
  lemma {:induction false} LookupIsScan(rows: seq<Row>, ids: seq<int>)
    requires Distinct(ids)
    ensures multiset(Lookup(rows, ids)) == multiset(Filter(rows, OfAny(Members(ids))))
    ensures Time(Lookup(rows, ids)) == Time(Filter(rows, OfAny(Members(ids))))
  {
    if ids == [] {
      FilterNone(rows, OfAny({}));
      assert Members(ids) == {};
    } else {
      var rest, last := ids[..|ids| - 1], ids[|ids| - 1];
      LookupIsScan(rows, rest);
      assert Members(ids) == Members(rest) + {last};
      OneMoreId(rows, Members(rest), last);
      TimeConcat(Lookup(rows, rest), Filter(rows, Of(last)));
    }
  }

  // ----- totals by category

  function CountWith(rows: seq<Row>, keep: Row -> bool): int { |Filter(rows, keep)| }

  function TimeWith(rows: seq<Row>, keep: Row -> bool): int { Time(Filter(rows, keep)) }

  function InCategory(category: string, categoryOf: string -> string): Row -> bool {
    (r: Row) => categoryOf(r.name) == category
  }

  /** Number and total time of the rows of a category. */
  function CountIn(rows: seq<Row>, c: string, categoryOf: string -> string): int {
    CountWith(rows, InCategory(c, categoryOf))
  }

  function TimeIn(rows: seq<Row>, c: string, categoryOf: string -> string): int {
    TimeWith(rows, InCategory(c, categoryOf))
  }

  lemma NextInCategory(rows: seq<Row>, k: nat, c: string, categoryOf: string -> string)
    requires k < |rows|
    ensures CountIn(rows[..k + 1], c, categoryOf) == CountIn(rows[..k], c, categoryOf)
            + (if categoryOf(rows[k].name) == c then 1 else 0)
    ensures TimeIn(rows[..k + 1], c, categoryOf)
         == TimeIn(rows[..k], c, categoryOf)
           + (if categoryOf(rows[k].name) == c then rows[k].end - rows[k].start else 0)
  {
    assert rows[..k + 1][..k] == rows[..k];
    FilterLast(rows[..k + 1], InCategory(c, categoryOf));
  }

  lemma NothingInCategory(c: string, categoryOf: string -> string)
    ensures CountIn([], c, categoryOf) == TimeIn([], c, categoryOf) == 0
  {
  }

  ghost predicate Tallied(rows: seq<Row>, counts: map<string, int>, times: map<string, int>,
                          categoryOf: string -> string) {
    && counts.Keys == times.Keys
    && forall c: string :: (if c in counts then counts[c] else 0) == CountIn(rows, c, categoryOf)
                        && (if c in times then times[c] else 0) == TimeIn(rows, c, categoryOf)
  }

  /** The loop over the kernels of a target: count and time of each category. */
  method CategoryTotals(rows: seq<Row>, categoryOf: string -> string)
    returns (counts: map<string, int>, times: map<string, int>)
    ensures forall i :: 0 <= i < |rows| ==> categoryOf(rows[i].name) in counts
    ensures Tallied(rows, counts, times, categoryOf)
  {
    hide CountIn, TimeIn;
    counts, times := map[], map[];
    assert forall c: string :: CountIn([], c, categoryOf) == TimeIn([], c, categoryOf) == 0 by {
      forall c: string ensures CountIn([], c, categoryOf) == TimeIn([], c, categoryOf) == 0 {
        NothingInCategory(c, categoryOf);
      }
    }
    var k := 0;
    while k < |rows|
      invariant k <= |rows| && Tallied(rows[..k], counts, times, categoryOf)
      invariant forall i :: 0 <= i < k ==> categoryOf(rows[i].name) in counts
    {
      var c := categoryOf(rows[k].name);
      forall d: string
        ensures CountIn(rows[..k + 1], d, categoryOf) == CountIn(rows[..k], d, categoryOf) + (if c == d then 1 else 0)
        ensures TimeIn(rows[..k + 1], d, categoryOf) == TimeIn(rows[..k], d, categoryOf)
                + (if c == d then rows[k].end - rows[k].start else 0)
      {
        NextInCategory(rows, k, d, categoryOf);
      }
      counts := counts[c := (if c in counts then counts[c] else 0) + 1];
      times := times[c := (if c in times then times[c] else 0) + rows[k].end - rows[k].start];
      k := k + 1;
    }
    assert rows[..k] == rows;
  }

  function CountOver(categories: seq<string>, rows: seq<Row>, categoryOf: string -> string): int {
    if categories == [] then 0
    else
      CountOver(categories[..|categories| - 1], rows, categoryOf)
      + CountIn(rows, categories[|categories| - 1], categoryOf)
  }

  function TimeOver(categories: seq<string>, rows: seq<Row>, categoryOf: string -> string): int {
    if categories == [] then 0
    else
      TimeOver(categories[..|categories| - 1], rows, categoryOf)
      + TimeIn(rows, categories[|categories| - 1], categoryOf)
  }

  lemma {:induction false} OneMoreRow(categories: seq<string>, rows: seq<Row>, k: nat, categoryOf: string -> string)
    requires k < |rows| && forall i, j :: 0 <= i < j < |categories| ==> categories[i] != categories[j]
    ensures var here := categoryOf(rows[k].name) in categories;
            && CountOver(categories, rows[..k + 1], categoryOf) == CountOver(categories, rows[..k], categoryOf)
              + (if here then 1 else 0)
            && TimeOver(categories, rows[..k + 1], categoryOf)
            == TimeOver(categories, rows[..k], categoryOf) + (if here then rows[k].end - rows[k].start else 0)
  {
    hide CountIn, TimeIn;
    if categories != [] {
      var rest, last := categories[..|categories| - 1], categories[|categories| - 1];
      OneMoreRow(rest, rows, k, categoryOf);
      NextInCategory(rows, k, last, categoryOf);
      assert categories == rest + [last];
    }
  }

  lemma {:induction false} NoRows(categories: seq<string>, categoryOf: string -> string)
    ensures CountOver(categories, [], categoryOf) == 0 && TimeOver(categories, [], categoryOf) == 0
  {
    if categories != [] { NoRows(categories[..|categories| - 1], categoryOf); }
  }

  /** Counts and times of the categories add up to those of all kernels of the target. */
  lemma {:induction false} CategoriesAddUp(categories: seq<string>, rows: seq<Row>, k: nat,
                                           categoryOf: string -> string)
    requires k <= |rows| && forall i, j :: 0 <= i < j < |categories| ==> categories[i] != categories[j]
    requires forall i :: 0 <= i < |rows| ==> categoryOf(rows[i].name) in categories
    ensures CountOver(categories, rows[..k], categoryOf) == k
    ensures TimeOver(categories, rows[..k], categoryOf) == Time(rows[..k])
  {
    hide CountOver, TimeOver;
    if k == 0 {
      NoRows(categories, categoryOf);
    } else {
      CategoriesAddUp(categories, rows, k - 1, categoryOf);
      OneMoreRow(categories, rows, k - 1, categoryOf);
      assert rows[..k][..k - 1] == rows[..k - 1];
    }
  }

  // ----- the observation of a target range

  /** A sum over the keys of a map, in any order. */
  function Sum(m: map<string, int>, keys: seq<string>): int
    requires forall k :: k in keys ==> k in m
  {
    if keys == [] then 0 else Sum(m, keys[..|keys| - 1]) + m[keys[|keys| - 1]]
  }

  lemma {:induction false} SumsAreTotals(rows: seq<Row>, counts: map<string, int>, times: map<string, int>,
                                         categoryOf: string -> string, keys: seq<string>)
    requires Tallied(rows, counts, times, categoryOf) && forall k :: k in keys ==> k in counts
    ensures Sum(counts, keys) == CountOver(keys, rows, categoryOf)
    ensures Sum(times, keys) == TimeOver(keys, rows, categoryOf)
  {
    if keys != [] {
      SumsAreTotals(rows, counts, times, categoryOf, keys[..|keys| - 1]);
      assert keys[|keys| - 1] in counts;
    }
  }

  /** The totals that the loop returns add up over their own keys, in whatever order these are listed,
      to the number and the total time of the kernels. */
  lemma TotalsAddUp(rows: seq<Row>, counts: map<string, int>, times: map<string, int>,
                    categoryOf: string -> string, keys: seq<string>)
    requires Tallied(rows, counts, times, categoryOf)
    requires forall i :: 0 <= i < |rows| ==> categoryOf(rows[i].name) in counts
    requires Distinct(keys) && Members(keys) == counts.Keys
    ensures Sum(counts, keys) == |rows| && Sum(times, keys) == Time(rows)
  {
    hide Tallied, Sum;
    forall i | 0 <= i < |rows| ensures categoryOf(rows[i].name) in keys {
      assert categoryOf(rows[i].name) in Members(keys);
    }
    forall k | k in keys ensures k in counts {
      assert k in Members(keys);
    }
    SumsAreTotals(rows, counts, times, categoryOf, keys);
    CategoriesAddUp(keys, rows, |rows|, categoryOf);
    assert rows[..|rows|] == rows;
  }

  lemma TotalsConcat(a: seq<Row>, b: seq<Row>, keep: Row -> bool)
    ensures CountWith(a + b, keep) == CountWith(a, keep) + CountWith(b, keep)
    ensures TimeWith(a + b, keep) == TimeWith(a, keep) + TimeWith(b, keep)
  {
    FilterConcat(a, b, keep);
    TimeConcat(Filter(a, keep), Filter(b, keep));
  }

  /** Taking one row out of a list. */
  lemma TotalsWithout(rows: seq<Row>, j: nat, keep: Row -> bool)
    requires j < |rows|
    ensures CountWith(rows, keep) == CountWith(rows[..j] + rows[j + 1..], keep) + CountWith([rows[j]], keep)
    ensures TimeWith(rows, keep) == TimeWith(rows[..j] + rows[j + 1..], keep) + TimeWith([rows[j]], keep)
    ensures multiset(rows) == multiset(rows[..j] + rows[j + 1..]) + multiset{rows[j]}
  {
    hide CountWith, TimeWith;
    var front, x, back := rows[..j], [rows[j]], rows[j + 1..];
    assert rows == front + (x + back);
    TotalsConcat(front, x + back, keep);
    TotalsConcat(x, back, keep);
    TotalsConcat(front, back, keep);
  }

  /** Totals do not depend on the order of rows. */
  lemma {:induction false} SameRowsSameTotals(a: seq<Row>, b: seq<Row>, keep: Row -> bool)
    requires multiset(a) == multiset(b)
    ensures CountWith(a, keep) == CountWith(b, keep) && TimeWith(a, keep) == TimeWith(b, keep)
    decreases |a|
  {
    hide CountWith, TimeWith;
    if a == [] {
      assert |multiset(a)| == |multiset(b)|;
      assert b == [];
    } else {
      assert a[0] in multiset(b);
      var j :| 0 <= j < |b| && b[j] == a[0];
      TotalsWithout(a, 0, keep);
      TotalsWithout(b, j, keep);
      var restA, restB := a[..0] + a[1..], b[..j] + b[j + 1..];
      assert multiset(restA) == multiset(a) - multiset{a[0]} == multiset(restB);
      SameRowsSameTotals(restA, restB, keep);
    }
  }

  /** The ids that rows carry. */
  function IdsOf(rows: seq<Row>): set<int> { set r | r in rows && r.correlation.Some? :: r.correlation.value }

  datatype Target = Target(kernelCount: int, kernelTime: int, counts: map<string, int>, times: map<string, int>)

  /** What a CPU range launched: the kernels whose correlation id occurs among the runtime calls inside
      the range.  Number and time are those of a scan of all kernels, and the categories add up to them. */
  method TargetObservation(runtime: seq<Row>, kernels: seq<Row>, start: int, end: int, categoryOf: string -> string)
    returns (r: Target)
    requires ByStart(runtime)
    ensures var launched := Filter(kernels, OfAny(IdsOf(Filter(runtime, Inside(start, end)))));
            && r.kernelCount == |launched| && r.kernelTime == Time(launched)
            && forall c: string ::
                 && (if c in r.counts then r.counts[c] else 0) == CountIn(launched, c, categoryOf)
                 && (if c in r.times then r.times[c] else 0) == TimeIn(launched, c, categoryOf)
    ensures r.counts.Keys == r.times.Keys
    ensures forall keys :: Distinct(keys) && Members(keys) == r.counts.Keys ==>
              Sum(r.counts, keys) == r.kernelCount && Sum(r.times, keys) == r.kernelTime
  {
    hide Filter, Time, Lookup, Sum, InCategory, CountWith, TimeWith;
    WithinRangeIsScan(runtime, start, end);
    var ids := InSomeOrder(IdsOf(WithinRange(runtime, start, end)));
    var grouped := GroupByCorrelation(kernels);
    var rows := RowsForCorrelations(grouped, ids, kernels);
    LookupIsScan(kernels, ids);
    var counts, times := CategoryTotals(rows, categoryOf);
    r := Target(|rows|, Time(rows), counts, times);
    ghost var launched := Filter(kernels, OfAny(Members(ids)));
    assert |multiset(rows)| == |multiset(launched)|;
    forall c: string
      ensures CountIn(rows, c, categoryOf) == CountIn(launched, c, categoryOf)
      ensures TimeIn(rows, c, categoryOf) == TimeIn(launched, c, categoryOf)
    {
      SameRowsSameTotals(rows, launched, InCategory(c, categoryOf));
    }
    forall keys | Distinct(keys) && Members(keys) == counts.Keys
      ensures Sum(counts, keys) == |rows| && Sum(times, keys) == Time(rows)
    {
      TotalsAddUp(rows, counts, times, categoryOf, keys);
    }
  }
}
