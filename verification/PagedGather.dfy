/** Paged K/V against a dense sequence: the packing of benchmarks/bench_paged_decode.py, its gather
    loop, and the flatten-then-truncate gather of artifacts/runtime_repairs_20260908/check_flashinfer.py. */
module PagedGather {
  import opened Paging

  datatype Gathered<T> = Rows(rows: seq<T>) | InvalidTable

  // ----- reshaping

  function Flatten<T>(pages: seq<seq<T>>): seq<T> {
    if pages == [] then [] else Flatten(pages[..|pages| - 1]) + pages[|pages| - 1]
  }

  /** The rows as n pages of `size` rows each. */
  function View<T>(rows: seq<T>, size: nat, n: nat): (pages: seq<seq<T>>)
    requires |rows| == Start(n, size)
    ensures |pages| == n && forall k :: 0 <= k < n ==> |pages[k]| == size
    decreases n
  {
    if n == 0 then [] else View(rows[..Start(n - 1, size)], size, n - 1) + [rows[Start(n - 1, size)..]]
  }

  lemma {:induction false} FlattenView<T>(rows: seq<T>, size: nat, n: nat)
    requires |rows| == Start(n, size)
    ensures Flatten(View(rows, size, n)) == rows
    decreases n
  {
    if n > 0 {
      FlattenView(rows[..Start(n - 1, size)], size, n - 1);
      assert View(rows, size, n)[..n - 1] == View(rows[..Start(n - 1, size)], size, n - 1);
    }
  }

  lemma {:induction false} FlattenLength<T>(pages: seq<seq<T>>, size: nat)
    requires forall k :: 0 <= k < |pages| ==> |pages[k]| == size
    ensures |Flatten(pages)| == Start(|pages|, size)
  {
    if pages != [] { FlattenLength(pages[..|pages| - 1], size); }
  }

  lemma {:induction false} ViewConcat<T>(a: seq<T>, b: seq<T>, size: nat, n: nat, m: nat)
    requires |a| == Start(n, size) && |b| == Start(m, size)
    ensures |a + b| == Start(n + m, size) && View(a + b, size, n + m) == View(a, size, n) + View(b, size, m)
    decreases m
  {
    StartAdds(n, m, size);
    if m == 0 {
      assert a + b == a;
    } else {
      StartAdds(n, m - 1, size);
      ViewConcat(a, b[..Start(m - 1, size)], size, n, m - 1);
      assert (a + b)[..Start(n + m - 1, size)] == a + b[..Start(m - 1, size)];
      assert (a + b)[Start(n + m - 1, size)..] == b[Start(m - 1, size)..];
    }
  }

  // ----- packing

  /** Every sequence padded to whole pages. */
  function Padded<T>(dense: seq<T>, zero: T, length: nat): (rows: seq<T>)
    requires |dense| <= length
    ensures |rows| == length && rows[..|dense|] == dense
  {
    dense + seq(length - |dense|, _ => zero)
  }

  /** The cache is the padded batch, reinterpreted as pages without moving a row. */
  function PackedCache<T>(batch: seq<seq<T>>, zero: T, contextLen: nat, size: nat): seq<seq<T>>
    requires size > 0 && forall b :: 0 <= b < |batch| ==> |batch[b]| == contextLen
  {
    var n := PagesFor(contextLen, size);
    PagesCover(contextLen, size);
    var padded := seq(|batch|, b requires 0 <= b < |batch| => Padded(batch[b], zero, Start(n, size)));
    PaddedLength(padded, size, n);
    View(Flatten(padded), size, Start(|batch|, n))
  }

  /** Row b of the block table: consecutive page numbers. */
  function BlockTable(b: nat, pages: nat): seq<int> { seq(pages, j => Start(b, pages) + j) }

  lemma {:induction false} PaddedLength<T>(padded: seq<seq<T>>, size: nat, n: nat)
    requires forall b :: 0 <= b < |padded| ==> |padded[b]| == Start(n, size)
    ensures |Flatten(padded)| == Start(Start(|padded|, n), size)
  {
    if padded != [] {
      PaddedLength(padded[..|padded| - 1], size, n);
      StartAdds(Start(|padded| - 1, n), n, size);
    }
  }

  /** Page Start(b, n) + j of the whole view is page j of sequence b. */
  lemma {:induction false} PageOfSequence<T>(padded: seq<seq<T>>, size: nat, n: nat, b: nat, j: nat)
    requires (forall i :: 0 <= i < |padded| ==> |padded[i]| == Start(n, size)) && b < |padded| && j < n
    ensures |Flatten(padded)| == Start(Start(|padded|, n), size) && Start(b, n) + j < Start(|padded|, n)
    ensures View(Flatten(padded), size, Start(|padded|, n))[Start(b, n) + j] == View(padded[b], size, n)[j]
  {
    PaddedLength(padded, size, n);
    var rest, last := padded[..|padded| - 1], padded[|padded| - 1];
    PaddedLength(rest, size, n);
    ViewConcat(Flatten(rest), last, size, Start(|rest|, n), n);
    if b < |rest| {
      PageOfSequence(rest, size, n, b, j);
      StartMonotone(b + 1, |padded|, n);
    }
  }

  // ----- the two gathers

  /** A table whose first n entries are pages of the cache. */
  predicate ValidTable(table: seq<int>, n: nat, pages: nat) {
    n <= |table| && forall j :: 0 <= j < n ==> 0 <= table[j] < pages
  }

  function Lookup<T>(cache: seq<seq<T>>, table: seq<int>, n: nat): (pages: seq<seq<T>>)
    requires ValidTable(table, n, |cache|)
    ensures |pages| == n
  {
    seq(n, j requires 0 <= j < n => cache[table[j]])
  }

  /** The simple form: all pages of the context, flattened, then cut to its length. */
  function FlattenThenTruncate<T>(cache: seq<seq<T>>, table: seq<int>, length: nat, size: nat): seq<T>
    requires size > 0 && ValidTable(table, PagesFor(length, size), |cache|)
    requires forall p :: 0 <= p < |cache| ==> |cache[p]| == size
  {
    var n := PagesFor(length, size);
    FlattenLength(Lookup(cache, table, n), size);
    PagesCover(length, size);
    Flatten(Lookup(cache, table, n))[..length]
  }

  lemma LookupNext<T>(cache: seq<seq<T>>, table: seq<int>, i: nat, size: nat)
    requires ValidTable(table, i + 1, |cache|) && forall p :: 0 <= p < |cache| ==> |cache[p]| == size
    ensures Flatten(Lookup(cache, table, i + 1)) == Flatten(Lookup(cache, table, i)) + cache[table[i]]
    ensures |Flatten(Lookup(cache, table, i))| == Start(i, size)
  {
    assert Lookup(cache, table, i + 1)[..i] == Lookup(cache, table, i);
    FlattenLength(Lookup(cache, table, i), size);
  }

  /** The loop: take at most a page from each block until the context is complete.  It rejects a table
      exactly if it does not name enough pages of the cache, or the context is empty. */
  method Gather<T>(cache: seq<seq<T>>, table: seq<int>, contextLen: int, size: nat) returns (r: Gathered<T>)
    requires size > 0 && forall p :: 0 <= p < |cache| ==> |cache[p]| == size
    ensures r.Rows? <==> contextLen > 0 && ValidTable(table, PagesFor(contextLen, size), |cache|)
    ensures r.Rows? ==> r.rows == FlattenThenTruncate(cache, table, contextLen, size)
  {
    var pieces: seq<T> := [];
    var remaining := contextLen;
    var i := 0;
    while i < |table| && remaining > 0 && table[i] >= 0
      invariant i <= |table| && ValidTable(table, i, |cache|)
      invariant remaining > 0 ==> contextLen - remaining == Start(i, size) && pieces == Flatten(Lookup(cache, table, i))
      invariant remaining <= 0 && contextLen > 0 ==>
        && remaining == 0 && i > 0 && Start(i - 1, size) < contextLen <= Start(i, size)
        && |Flatten(Lookup(cache, table, i))| == Start(i, size)
        && pieces == Flatten(Lookup(cache, table, i))[..contextLen]
      invariant contextLen <= 0 ==> i == 0
    {
      if table[i] >= |cache| {
        NotEnough(table, i, contextLen, |cache|, size);
        return InvalidTable;
      }
      LookupNext(cache, table, i, size);
      var take := if size < remaining then size else remaining;
      pieces := pieces + cache[table[i]][..take];
      remaining := remaining - take;
      i := i + 1;
    }
    if remaining != 0 || i == 0 {
      if contextLen > 0 { NotEnough(table, i, contextLen, |cache|, size); }
      return InvalidTable;
    }
    PagesAre(i, contextLen, size);
    r := Rows(pieces);
  }

  /** A table that ends, or names no page, before the context is covered is not valid for it. */
  lemma NotEnough(table: seq<int>, i: nat, contextLen: nat, pages: nat, size: nat)
    requires size > 0 && i <= |table| && Start(i, size) < contextLen
    requires i == |table| || table[i] < 0 || table[i] >= pages
    ensures !ValidTable(table, PagesFor(contextLen, size), pages)
  {
    PagesCover(contextLen, size);
    StartReflects(i, PagesFor(contextLen, size), size);
  }

  // ----- the round trip

  lemma PackedLookup<T>(padded: seq<seq<T>>, size: nat, n: nat, b: nat)
    requires (forall i :: 0 <= i < |padded| ==> |padded[i]| == Start(n, size)) && b < |padded|
    ensures |Flatten(padded)| == Start(Start(|padded|, n), size)
    ensures var cache := View(Flatten(padded), size, Start(|padded|, n));
            ValidTable(BlockTable(b, n), n, |cache|) && Lookup(cache, BlockTable(b, n), n) == View(padded[b], size, n)
  {
    PaddedLength(padded, size, n);
    StartMonotone(b + 1, |padded|, n);
    var cache := View(Flatten(padded), size, Start(|padded|, n));
    forall j | 0 <= j < n ensures cache[BlockTable(b, n)[j]] == View(padded[b], size, n)[j] {
      PageOfSequence(padded, size, n, b, j);
    }
  }

  /** Packing a batch and gathering it through the block table gives back every dense sequence, for
      every page size: what is gathered does not depend on the page size. */
  lemma GatherPacked<T>(batch: seq<seq<T>>, zero: T, contextLen: nat, size: nat, b: nat)
    requires size > 0 && contextLen > 0 && (forall i :: 0 <= i < |batch| ==> |batch[i]| == contextLen) && b < |batch|
    ensures var n, cache := PagesFor(contextLen, size), PackedCache(batch, zero, contextLen, size);
            && ValidTable(BlockTable(b, n), n, |cache|) && (forall p :: 0 <= p < |cache| ==> |cache[p]| == size)
            && FlattenThenTruncate(cache, BlockTable(b, n), contextLen, size) == batch[b]
  {
    var n := PagesFor(contextLen, size);
    PagesCover(contextLen, size);
    var padded := seq(|batch|, i requires 0 <= i < |batch| => Padded(batch[i], zero, Start(n, size)));
    PackedLookup(padded, size, n, b);
    FlattenView(padded[b], size, n);
  }
}
