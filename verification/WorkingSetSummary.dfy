/** The matrix summary of benchmarks/summarize_working_set.py: which records it accepts together, in
    which order it lists them, and what it demands of population snapshots. */
module WorkingSetSummary {
  import opened Wrappers
  import opened FiniteSets

  // ----- population snapshots

  datatype Request = Request(id: Option<nat>, completed: bool)

  function Ids(requests: seq<Request>): seq<Option<nat>> {
    seq(|requests|, i requires 0 <= i < |requests| => requests[i].id)
  }

  /** The loop over the cumulative snapshots of a Prism population. */
  method CheckSnapshots(runs: seq<seq<Request>>, expected: nat) returns (ok: bool)
    ensures ok <==> |runs| == expected && ChainOk(runs, |runs|)
  {
    if |runs| != expected { return false; }
    var previous: seq<Option<nat>> := [];
    var k := 0;
    while k < |runs|
      invariant k <= |runs| && ChainOk(runs, k) && previous == (if k == 0 then [] else Ids(runs[k - 1]))
    {
      var ids := Ids(runs[k]);
      if |ids| != k + 1 || ids[..k] != previous || ids[k] == None || ids[k] in previous || !runs[k][k].completed {
        NotAChain(runs, k, |runs|);
        return false;
      }
      previous := ids;
      k := k + 1;
    }
    ok := true;
  }

  /** Each of the first n snapshots adds one new, completed request to the one before it. */
  predicate ChainOk(runs: seq<seq<Request>>, n: nat)
    requires n <= |runs|
  {
    n == 0 || (ChainOk(runs, n - 1) && LinkOk(runs, n - 1))
  }

  predicate LinkOk(runs: seq<seq<Request>>, k: nat)
    requires k < |runs|
  {
    var previous := if k == 0 then [] else Ids(runs[k - 1]);
    var ids := Ids(runs[k]);
    |ids| == k + 1 && ids[..k] == previous && ids[k] != None && ids[k] !in previous && runs[k][k].completed
  }

  lemma {:induction false} NotAChain(runs: seq<seq<Request>>, k: nat, n: nat)
    requires k < n <= |runs| && !LinkOk(runs, k)
    ensures !ChainOk(runs, n)
    decreases n
  {
    if k < n - 1 { NotAChain(runs, k, n - 1); }
  }

  predicate AllDifferent(ids: seq<Option<nat>>) {
    (forall i, j :: 0 <= i < j < |ids| ==> ids[i] != ids[j]) && forall i :: 0 <= i < |ids| ==> ids[i].Some?
  }

  /** Accepted snapshots are a strictly growing chain of prefixes of the last one, and its request ids
      are all different. */
  lemma {:induction false} SnapshotsAreAChain(runs: seq<seq<Request>>, n: nat)
    requires 0 < n <= |runs| && ChainOk(runs, n)
    ensures |runs[n - 1]| == n
    ensures forall k :: 0 <= k < n ==> |runs[k]| == k + 1 && Ids(runs[k]) == Ids(runs[n - 1])[..k + 1]
    ensures AllDifferent(Ids(runs[n - 1]))
  {
    assert LinkOk(runs, n - 1);
    if n > 1 {
      SnapshotsAreAChain(runs, n - 1);
      var ids, before := Ids(runs[n - 1]), Ids(runs[n - 2]);
      assert forall i :: 0 <= i < n - 1 ==> ids[i] == before[i];
    }
  }

  // ----- cells

  /** Positions of working set, engine and (for Prism) variant in their fixed orders. */
  datatype Key = Key(workset: nat, engine: nat, variant: nat)

  predicate ValidKey(k: Key) { k.workset < 3 && k.engine < 3 && k.variant < 3 && (k.engine > 0 ==> k.variant == 0) }

  predicate Before(a: Key, b: Key) {
    a.workset < b.workset
    || (a.workset == b.workset && (a.engine < b.engine || (a.engine == b.engine && a.variant < b.variant)))
  }

  function RequiredOf(workset: nat): seq<Key> {
    [Key(workset, 0, 0), Key(workset, 0, 1), Key(workset, 0, 2), Key(workset, 1, 0), Key(workset, 2, 0)]
  }

  const REQUIRED := RequiredOf(0) + RequiredOf(1) + RequiredOf(2)

  /** A summarized record: what must agree over all of them, what must agree within a working set, and
      the rest. */
  datatype Cell = Cell(key: Key, plan: nat, model: nat, budget: nat, workload: nat, rest: nat)

  datatype Summary = Summary(cells: seq<Cell>, workloads: map<nat, nat>, missing: set<Key>,
                             plan: nat, model: nat, budget: nat)

  function Keys(cells: seq<Cell>): set<Key> { set c | c in cells :: c.key }

  function RequiredKeys(): set<Key> { set k | k in REQUIRED }

  /** The records fit together; this does not look at their order. */
  ghost predicate Compatible(cells: seq<Cell>, allowPartial: bool) {
    && cells != []
    && Agree(cells)
    && OneWorkload(cells) && |Keys(cells)| == |cells|
    && (allowPartial || RequiredKeys() <= Keys(cells))
  }

  ghost predicate InOrder(cells: seq<Cell>) {
    forall i, j :: 0 <= i < j < |cells| ==> Before(cells[i].key, cells[j].key)
  }

  /** What an accepted summary says about the cells. */
  ghost predicate Summarizes(s: Summary, cells: seq<Cell>) {
    && InOrder(s.cells) && (forall c :: c in s.cells <==> c in cells)
    && s.missing == RequiredKeys() - Keys(cells)
    && (forall c :: c in cells ==> c.plan == s.plan && c.model == s.model && c.budget == s.budget)
    && WorkloadsOf(s.workloads, cells)
  }

  // ----- sorting by key

  function Insert(x: Cell, cells: seq<Cell>): seq<Cell> {
    if cells == [] then [x]
    else if Before(x.key, cells[0].key) then [x] + cells
    else [cells[0]] + Insert(x, cells[1..])
  }

  lemma {:induction false} InsertOk(x: Cell, cells: seq<Cell>)
    requires InOrder(cells) && forall c :: c in cells ==> c.key != x.key
    ensures InOrder(Insert(x, cells)) && forall c :: c in Insert(x, cells) <==> c in cells || c == x
  {
    if cells != [] && !Before(x.key, cells[0].key) {
      var rest := cells[1..];
      InsertOk(x, rest);
      var r := Insert(x, rest);
      forall j | 0 <= j < |r| ensures Before(cells[0].key, r[j].key) {
        assert r[j] in r;
        assert cells[0] in cells;
      }
      assert cells == [cells[0]] + rest;
    }
  }

  /** The library's sort, on different keys. */
  function Sort(cells: seq<Cell>): seq<Cell> {
    if cells == [] then [] else Insert(cells[|cells| - 1], Sort(cells[..|cells| - 1]))
  }

  lemma {:induction false} SortOk(cells: seq<Cell>)
    requires forall i, j :: 0 <= i < j < |cells| ==> cells[i].key != cells[j].key
    ensures InOrder(Sort(cells)) && forall c :: c in Sort(cells) <==> c in cells
  {
    if cells != [] {
      var rest, last := cells[..|cells| - 1], cells[|cells| - 1];
      SortOk(rest);
      assert cells == rest + [last];
      InsertOk(last, Sort(rest));
    }
  }

  // ----- the summary

  lemma {:induction false} KeysBound(cells: seq<Cell>)
    ensures |Keys(cells)| <= |cells|
  {
    if cells != [] {
      var rest, last := cells[..|cells| - 1], cells[|cells| - 1];
      KeysBound(rest);
      assert forall c :: c in cells <==> c in rest || c == last;
      assert Keys(cells) == Keys(rest) + {last.key};
    }
  }

  lemma FewerKeys(all: set<Key>, a: set<Key>, b: set<Key>)
    requires all <= a + b
    ensures |all| <= |a| + |b|
  {
    SubsetSize(all, a + b);
  }

  /** A key that comes twice leaves fewer keys than records. */
  lemma DuplicateKey(cells: seq<Cell>, i: nat)
    requires i < |cells| && cells[i].key in Keys(cells[..i])
    ensures |Keys(cells)| < |cells|
  {
    var before, after := cells[..i], cells[i + 1..];
    KeysBound(before);
    KeysBound(after);
    forall k | k in Keys(cells) ensures k in Keys(before) + Keys(after) {
      var c :| c in cells && c.key == k;
      assert cells == before + [cells[i]] + after;
    }
    FewerKeys(Keys(cells), Keys(before), Keys(after));
  }

  function Plans(cells: seq<Cell>): set<nat> { set c | c in cells :: c.plan }
  function Models(cells: seq<Cell>): set<nat> { set c | c in cells :: c.model }
  function Budgets(cells: seq<Cell>): set<nat> { set c | c in cells :: c.budget }

  lemma OneValue(values: set<nat>)
    requires values != {}
    ensures |values| == 1 <==> forall a, b :: a in values && b in values ==> a == b
  {
    var x :| x in values;
    assert |values - {x}| == |values| - 1;
    if forall a, b :: a in values && b in values ==> a == b {
      assert values - {x} == {};
    }
  }

  ghost predicate Agree(cells: seq<Cell>) {
    forall c, d :: c in cells && d in cells ==> c.plan == d.plan && c.model == d.model && c.budget == d.budget
  }

  lemma AgreeIffOneValue(cells: seq<Cell>)
    requires cells != []
    ensures Agree(cells) <==> |Plans(cells)| == |Models(cells)| == |Budgets(cells)| == 1
  {
    assert cells[0] in cells;
    assert cells[0].plan in Plans(cells) && cells[0].model in Models(cells) && cells[0].budget in Budgets(cells);
    OneValue(Plans(cells));
    OneValue(Models(cells));
    OneValue(Budgets(cells));
    if |Plans(cells)| == |Models(cells)| == |Budgets(cells)| == 1 {
      forall c, d | c in cells && d in cells ensures c.plan == d.plan && c.model == d.model && c.budget == d.budget {
        assert c.plan in Plans(cells) && d.plan in Plans(cells);
        assert c.model in Models(cells) && d.model in Models(cells);
        assert c.budget in Budgets(cells) && d.budget in Budgets(cells);
      }
    }
  }

  /** The first n cells have different keys and one workload per working set; `origin` names a cell for
      each recorded workload. */
  ghost predicate Noted(cells: seq<Cell>, n: nat, seen: set<Key>, workloads: map<nat, nat>, origin: map<nat, nat>) {
    && n <= |cells| && seen == Keys(cells[..n]) && origin.Keys == workloads.Keys
    && (forall i, j :: 0 <= i < j < n ==> cells[i].key != cells[j].key)
    && (forall w :: w in origin ==>
        origin[w] < n && cells[origin[w]].key.workset == w && cells[origin[w]].workload == workloads[w])
    && forall i :: 0 <= i < n ==>
        cells[i].key.workset in workloads && workloads[cells[i].key.workset] == cells[i].workload
  }

  lemma NoteNext(cells: seq<Cell>, n: nat, seen: set<Key>, workloads: map<nat, nat>, origin: map<nat, nat>)
    requires Noted(cells, n, seen, workloads, origin) && n < |cells| && cells[n].key !in seen
    requires cells[n].key.workset in workloads ==> workloads[cells[n].key.workset] == cells[n].workload
    ensures var w := cells[n].key.workset;
            Noted(cells, n + 1, seen + {cells[n].key}, if w in workloads then workloads
              else workloads[w := cells[n].workload],
                  if w in origin then origin else origin[w := n])
  {
    hide Keys;
    NextKey(cells, n);
  }

  lemma NothingNoted(cells: seq<Cell>)
    ensures Keys(cells[..0]) == {} && Noted(cells, 0, {}, map[], map[])
  {
    assert Keys(cells[..0]) == {};
  }

  lemma NotedMeans(cells: seq<Cell>, n: nat, seen: set<Key>, workloads: map<nat, nat>, origin: map<nat, nat>)
    requires Noted(cells, n, seen, workloads, origin)
    ensures n <= |cells| && seen == Keys(cells[..n]) && origin.Keys == workloads.Keys
    ensures forall w :: w in origin ==>
              origin[w] < n && cells[origin[w]].key.workset == w && cells[origin[w]].workload == workloads[w]
  {
  }

  /** The loop over the cells; it stops at a second workload of a working set or a second cell of a key. */
  method NoteCells(cells: seq<Cell>) returns (ok: bool, seen: set<Key>, workloads: map<nat, nat>,
                   ghost origin: map<nat, nat>)
    ensures ok ==> Noted(cells, |cells|, seen, workloads, origin)
    ensures !ok ==> |Keys(cells)| < |cells| || exists i, j :: Conflict(cells, i, j)
  {
    hide Keys, Noted;
    seen, workloads, origin := {}, map[], map[];
    NothingNoted(cells);
    var n := 0;
    while n < |cells|
      invariant n <= |cells| && Noted(cells, n, seen, workloads, origin)
    {
      var c := cells[n];
      NotedMeans(cells, n, seen, workloads, origin);
      if c.key.workset in workloads && workloads[c.key.workset] != c.workload {
        assert Conflict(cells, origin[c.key.workset], n);
        return false, seen, workloads, origin;
      }
      if c.key in seen {
        DuplicateKey(cells, n);
        return false, seen, workloads, origin;
      }
      NoteNext(cells, n, seen, workloads, origin);
      if c.key.workset !in workloads {
        workloads, origin := workloads[c.key.workset := c.workload], origin[c.key.workset := n];
      }
      seen, n := seen + {c.key}, n + 1;
    }
    ok := true;
  }

  ghost predicate Conflict(cells: seq<Cell>, i: int, j: int) {
    0 <= i < |cells| && 0 <= j < |cells| && cells[i].key.workset == cells[j].key.workset
      && cells[i].workload != cells[j].workload
  }

  lemma NextKey(cells: seq<Cell>, n: nat)
    requires n < |cells|
    ensures Keys(cells[..n + 1]) == Keys(cells[..n]) + {cells[n].key}
    ensures cells[n].key !in Keys(cells[..n]) ==> forall i :: 0 <= i < n ==> cells[i].key != cells[n].key
  {
    assert cells[..n + 1] == cells[..n] + [cells[n]];
    assert forall c :: c in cells[..n + 1] <==> c in cells[..n] || c == cells[n];
    forall i | 0 <= i < n ensures cells[i].key in Keys(cells[..n]) {
      assert cells[i] in cells[..n];
    }
  }

  lemma {:induction false} DifferentKeysCount(cells: seq<Cell>, n: nat)
    requires n <= |cells| && forall i, j :: 0 <= i < j < |cells| ==> cells[i].key != cells[j].key
    ensures |Keys(cells[..n])| == n
  {
    hide Keys;
    NothingNoted(cells);
    if n > 0 {
      DifferentKeysCount(cells, n - 1);
      NextKey(cells, n - 1);
      LastKeyIsNew(cells, n - 1);
    }
  }

  lemma LastKeyIsNew(cells: seq<Cell>, n: nat)
    requires n < |cells| && forall i, j :: 0 <= i < j < |cells| ==> cells[i].key != cells[j].key
    ensures cells[n].key !in Keys(cells[..n])
  {
    forall c | c in cells[..n] ensures c.key != cells[n].key {
      var i :| 0 <= i < n && cells[..n][i] == c;
    }
  }

  /** One workload per working set. */
  ghost predicate OneWorkload(cells: seq<Cell>) {
    forall c, d :: c in cells && d in cells && c.key.workset == d.key.workset ==> c.workload == d.workload
  }

  ghost predicate WorkloadsOf(workloads: map<nat, nat>, cells: seq<Cell>) {
    && (forall c :: c in cells ==> c.key.workset in workloads && workloads[c.key.workset] == c.workload)
    && forall w :: w in workloads ==> exists c :: c in cells && c.key.workset == w
  }

  lemma NotedAll(cells: seq<Cell>, seen: set<Key>, workloads: map<nat, nat>, origin: map<nat, nat>)
    requires Noted(cells, |cells|, seen, workloads, origin)
    ensures seen == Keys(cells) && |Keys(cells)| == |cells| && OneWorkload(cells) && WorkloadsOf(workloads, cells)
    ensures forall i, j :: 0 <= i < j < |cells| ==> cells[i].key != cells[j].key
  {
    assert cells[..|cells|] == cells;
    DifferentKeysCount(cells, |cells|);
    forall w | w in workloads ensures exists c :: c in cells && c.key.workset == w {
      assert cells[origin[w]] in cells;
    }
    forall c | c in cells ensures c.key.workset in workloads && workloads[c.key.workset] == c.workload {
      var i :| 0 <= i < |cells| && cells[i] == c;
    }
  }

  lemma ConflictRefutes(cells: seq<Cell>)
    requires exists i, j :: Conflict(cells, i, j)
    ensures !OneWorkload(cells)
  {
    var i, j :| Conflict(cells, i, j);
    assert cells[i] in cells && cells[j] in cells;
  }

  /** Validate and aggregate the cells of all records; `None` stands for any of the errors. */
  method SummarizeRecords(cells: seq<Cell>, allowPartial: bool) returns (r: Option<Summary>)
    ensures r.Some? <==> Compatible(cells, allowPartial)
    ensures r.Some? ==> Summarizes(r.value, cells)
  {
    hide Agree, OneWorkload, WorkloadsOf, Noted, Keys, InOrder, Plans, Models, Budgets;
    if cells == [] { return None; }
    AgreeIffOneValue(cells);
    if |Plans(cells)| != 1 || |Models(cells)| != 1 || |Budgets(cells)| != 1 { return None; }
    ghost var origin;
    var ok, seen, workloads;
    ok, seen, workloads, origin := NoteCells(cells);
    if !ok {
      if exists i, j :: Conflict(cells, i, j) { ConflictRefutes(cells); }
      return None;
    }
    NotedAll(cells, seen, workloads, origin);
    NothingMissing(RequiredKeys(), seen);
    if RequiredKeys() - seen != {} && !allowPartial { return None; }
    SortOk(cells);
    AgreeWithFirst(cells);
    r := Some(Summary(Sort(cells), workloads, RequiredKeys() - seen, cells[0].plan, cells[0].model, cells[0].budget));
  }

  lemma AgreeWithFirst(cells: seq<Cell>)
    requires Agree(cells) && cells != []
    ensures forall c :: c in cells ==>
              c.plan == cells[0].plan && c.model == cells[0].model && c.budget == cells[0].budget
  {
    assert cells[0] in cells;
  }

  // ----- order does not matter

  /** Cells in key order are determined by which cells they are. */
  lemma {:induction false} OrderedUnique(a: seq<Cell>, b: seq<Cell>)
    requires InOrder(a) && InOrder(b) && forall c :: c in a <==> c in b
    ensures a == b
    decreases |a|
  {
    assert a != [] ==> a[0] in a;
    assert b != [] ==> b[0] in b;
    if a != [] {
      var x, y := a[1..], b[1..];
      assert a == [a[0]] + x && b == [b[0]] + y;
      forall c ensures c in x <==> c in y {
        assert c in x ==> c in a && c != a[0];
        assert c in y ==> c in b && c != b[0];
      }
      OrderedUnique(x, y);
    }
  }

  lemma SameKeys(a: seq<Cell>, b: seq<Cell>)
    requires forall c :: c in a <==> c in b
    ensures Keys(a) == Keys(b)
  {
  }

  lemma SameMembers(a: seq<Cell>, b: seq<Cell>)
    requires multiset(a) == multiset(b)
    ensures |a| == |b| && forall c :: c in a <==> c in b
  {
    assert |a| == |multiset(a)| && |b| == |multiset(b)|;
    forall c ensures c in a <==> c in b {
      assert c in a <==> c in multiset(a);
      assert c in b <==> c in multiset(b);
    }
  }

  /** Permuting the records changes neither whether they are accepted nor their summary. */
  lemma PermutationInvariant(a: seq<Cell>, b: seq<Cell>, allowPartial: bool, s: Summary, t: Summary)
    requires multiset(a) == multiset(b)
    ensures Compatible(a, allowPartial) <==> Compatible(b, allowPartial)
    ensures Compatible(a, allowPartial) && Summarizes(s, a) && Summarizes(t, b) ==> s == t
  {
    SameMembers(a, b);
    SameKeys(a, b);
    if Compatible(a, allowPartial) && Summarizes(s, a) && Summarizes(t, b) {
      OrderedUnique(s.cells, t.cells);
      assert a[0] in a;
      SameWorkloads(a, b, s.workloads, t.workloads);
    }
  }

  lemma SameWorkloads(a: seq<Cell>, b: seq<Cell>, v: map<nat, nat>, w: map<nat, nat>)
    requires (forall c :: c in a <==> c in b) && WorkloadsOf(v, a) && WorkloadsOf(w, b)
    ensures v == w
  {
    forall k ensures k in v <==> k in w && (k in v ==> v[k] == w[k]) {
      if k in v {
        var c :| c in a && c.key.workset == k;
      }
      if k in w {
        var c :| c in b && c.key.workset == k;
      }
    }
  }

  // ----- the complete matrix

  lemma RequiredAreAll(k: Key)
    ensures k in RequiredKeys() <==> ValidKey(k)
  {
    var workset := k.workset;
    assert REQUIRED == RequiredOf(0) + RequiredOf(1) + RequiredOf(2);
  }

  /** An accepted summary without partial results lists exactly one cell for each required combination,
      in the one canonical order. */
  lemma CompleteIsCanonical(s: Summary, cells: seq<Cell>)
    requires Compatible(cells, false) && Summarizes(s, cells) && forall c :: c in cells ==> ValidKey(c.key)
    ensures s.missing == {} && |s.cells| == |REQUIRED|
    ensures forall i :: 0 <= i < |REQUIRED| ==> s.cells[i].key == REQUIRED[i]
  {
    var keys := seq(|s.cells|, i requires 0 <= i < |s.cells| => s.cells[i].key);
    forall k ensures k in keys <==> k in REQUIRED {
      RequiredAreAll(k);
      KeyIsThere(s, cells, keys, k);
    }
    KeysUnique(keys, REQUIRED);
  }

  ghost predicate KeysInOrder(keys: seq<Key>) { forall i, j :: 0 <= i < j < |keys| ==> Before(keys[i], keys[j]) }

  lemma KeyIsThere(s: Summary, cells: seq<Cell>, keys: seq<Key>, k: Key)
    requires Summarizes(s, cells) && |keys| == |s.cells| && forall i :: 0 <= i < |keys| ==> keys[i] == s.cells[i].key
    ensures k in keys <==> k in Keys(cells)
  {
    if k in keys {
      var i :| 0 <= i < |keys| && keys[i] == k;
      assert s.cells[i] in s.cells;
    }
    if k in Keys(cells) {
      var c :| c in cells && c.key == k;
      var i :| 0 <= i < |s.cells| && s.cells[i] == c;
      assert keys[i] == k;
    }
  }

  lemma {:induction false} KeysUnique(a: seq<Key>, b: seq<Key>)
    requires KeysInOrder(a) && KeysInOrder(b) && forall k :: k in a <==> k in b
    ensures a == b
    decreases |a|
  {
    assert a != [] ==> a[0] in a;
    assert b != [] ==> b[0] in b;
    if a != [] {
      var x, y := a[1..], b[1..];
      assert a == [a[0]] + x && b == [b[0]] + y;
      forall k ensures k in x <==> k in y {
        assert k in x ==> k in a && k != a[0];
        assert k in y ==> k in b && k != b[0];
      }
      KeysUnique(x, y);
    }
  }
}
