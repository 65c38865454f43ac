/** The GPU block pool of prism_infer/engine/block_pool.py: reference counts, the free queue with its
    stale entries, hashed pages that stay cached after their last release, and the prefix index. */
module BlockPool {
  import opened Wrappers
  import opened FiniteSets

  /** A page: how often it is held, and the hash of its contents if it has one.  Hashes stand for the
      tokens they are computed from. */
  datatype Block = Block(refs: nat, hash: Option<int>)

  /** Pages that nobody holds. */
  function Unheld(blocks: seq<Block>): set<nat> { set b | 0 <= b < |blocks| && blocks[b].refs == 0 }

  /** Every page is free or used; free pages are queued, unheld and without hash; cached pages are
      exactly the used pages that nobody holds. */
  ghost predicate ListsOk(blocks: seq<Block>, queue: seq<nat>, free: set<nat>, used: set<nat>, cached: seq<nat>,
                          retain: bool) {
    && free !! used && free <= Members(queue) && Distinct(cached)
    && (forall b: nat :: b < |blocks| ==> b in free || b in used)
    && (forall b :: b in free ==> b < |blocks| && blocks[b] == Block(0, None))
    && (forall b :: b in used ==> b < |blocks| && (blocks[b].refs == 0 <==> b in cached))
    && (forall b :: b in cached ==> b in used && blocks[b].hash.Some? && retain)
  }

  /** The index leads to used pages that carry the hash. */
  ghost predicate IndexOk(blocks: seq<Block>, index: map<int, nat>, used: set<nat>) {
    forall h :: h in index ==> index[h] in used && index[h] < |blocks| && blocks[index[h]].hash == Some(h)
  }

  /** The index without an entry that leads to page b. */
  function Unindexed(blocks: seq<Block>, index: map<int, nat>, b: nat): map<int, nat>
    requires b < |blocks|
  {
    match blocks[b].hash
    case None => index
    case Some(h) => if h in index && index[h] == b then index - {h} else index
  }

  lemma UnheldAre(blocks: seq<Block>, queue: seq<nat>, free: set<nat>, used: set<nat>, cached: seq<nat>, retain: bool)
    requires ListsOk(blocks, queue, free, used, cached, retain)
    ensures Unheld(blocks) == free + Members(cached) && free !! Members(cached)
    ensures |Members(cached)| == |cached| && |Unheld(blocks)| == |free| + |cached|
    ensures forall b :: b in free ==> b < |blocks| && blocks[b] == Block(0, None)
  {
    DistinctSize(cached);
    assert forall b :: b in Unheld(blocks) <==> b in free + Members(cached);
  }

  lemma AllPages(all: seq<nat>)
    requires forall i :: 0 <= i < |all| ==> all[i] == i
    ensures forall b: nat :: b in Members(all) <==> b < |all|
  {
    forall b: nat | b < |all| ensures b in Members(all) {
      assert all[b] == b;
    }
  }

  lemma {:induction false} DistinctSize(s: seq<nat>)
    requires Distinct(s)
    ensures |Members(s)| == |s|
  {
    if s != [] {
      var rest, last := s[..|s| - 1], s[|s| - 1];
      DistinctSize(rest);
      assert Members(s) == Members(rest) + {last};
      assert last !in rest;
    } else {
      assert Members(s) == {};
    }
  }

  /** Different pages that nobody held were handed out, each to one owner; no other page changed hands. */
  ghost predicate Taken(before: seq<Block>, blocks: seq<Block>, taken: seq<nat>) {
    && |blocks| == |before| && Distinct(taken)
    && (forall k :: 0 <= k < |taken| ==>
          taken[k] < |blocks| && before[taken[k]].refs == 0 && blocks[taken[k]] == Block(1, None))
    && forall b :: 0 <= b < |blocks| && b !in taken ==> blocks[b].refs == before[b].refs
  }

  lemma TakenAreUnheld(before: seq<Block>, blocks: seq<Block>, taken: seq<nat>)
    requires Taken(before, blocks, taken)
    ensures Unheld(blocks) == Unheld(before) - Members(taken) && |Unheld(blocks)| == |Unheld(before)| - |taken|
  {
    DistinctSize(taken);
    assert Members(taken) <= Unheld(before);
  }

  lemma NotAllTaken(before: seq<Block>, blocks: seq<Block>, taken: seq<nat>)
    requires Taken(before, blocks, taken) && |taken| < |Unheld(before)|
    ensures Unheld(blocks) != {}
  {
    TakenAreUnheld(before, blocks, taken);
  }

  lemma TakeOne(before: seq<Block>, blocks: seq<Block>, taken: seq<nat>, b: nat)
    requires Taken(before, blocks, taken) && b in Unheld(blocks)
    ensures Taken(before, blocks[b := Block(1, None)], taken + [b])
  {
  }

  class GpuBlockPool {
    const retain: bool
    var blocks: seq<Block>
    var index: map<int, nat>
    var queue: seq<nat>
    var free: set<nat>
    var used: set<nat>
    var cached: seq<nat>

    ghost predicate Valid()
      reads this
    {
      ListsOk(blocks, queue, free, used, cached, retain) && IndexOk(blocks, index, used)
    }

    constructor (pages: nat, retain: bool)
      ensures Valid() && this.retain == retain && |blocks| == pages && index == map[]
      ensures forall b :: 0 <= b < pages ==> blocks[b] == Block(0, None)
    {
      this.retain := retain;
      var all: seq<nat> := seq(pages, i => i);
      blocks, index := seq(pages, _ => Block(0, None)), map[];
      queue, free, used, cached := all, Members(all), {}, [];
      AllPages(all);
    }

    /** What admission counts as free: free and cached pages, which are the pages nobody holds. */
    method FreeCount() returns (n: nat)
      requires Valid()
      ensures n == |Unheld(blocks)|
    {
      UnheldAre(blocks, queue, free, used, cached, retain);
      n := |free| + |cached|;
    }

    /** Hand out a free page; its queue entry may be left behind. */
    method Allocate(b: nat)
      requires Valid() && b in free && b < |blocks|
      modifies this`blocks, this`free, this`used
      ensures Valid() && blocks == old(blocks)[b := Block(1, None)]
      ensures free == old(free) - {b} && used == old(used) + {b}
    {
      blocks, free, used := blocks[b := Block(1, None)], free - {b}, used + {b};
    }

    /** Drop queue entries until one names a free page. */
    method PopFree() returns (found: Option<nat>)
      requires Valid()
      modifies this`queue
      ensures Valid() && (found.None? <==> free == {})
      ensures (found.Some? ==> found.value in free && found.value < |blocks|)
    {
      while queue != []
        invariant Valid()
        decreases |queue|
      {
        var b := queue[0];
        if b in free { return Some(b); }
        assert queue == [b] + queue[1..];
        queue := queue[1..];
      }
      found := None;
    }

    /** Turn the oldest cached page into a free one; its hash is forgotten. */
    method EvictOldestCached() returns (b: nat)
      requires Valid() && cached != []
      modifies this`blocks, this`index, this`queue, this`free, this`used, this`cached
      ensures Valid() && b == old(cached[0]) && cached == old(cached[1..]) && b < |old(blocks)|
      ensures old(blocks[b].refs) == 0
      ensures blocks == old(blocks)[b := Block(0, None)] && index == Unindexed(old(blocks), old(index), b)
      ensures free == old(free) + {b}
    {
      b := cached[0];
      assert b in cached;
      assert cached == [b] + cached[1..];
      index := Unindexed(blocks, index, b);
      blocks, cached := blocks[b := Block(0, None)], cached[1..];
      used, free, queue := used - {b}, free + {b}, queue + [b];
      assert forall c :: c in old(queue) ==> c in queue;
      assert queue[|queue| - 1] == b;
    }

    /** A page for a new owner: a free one, else the one cached longest.  It fails exactly if every page
        is held, and no hash leads to the page it returns. */
    method AllocateFree() returns (page: Option<nat>)
      requires Valid()
      modifies this
      ensures Valid() && (page.None? <==> Unheld(old(blocks)) == {})
      ensures page.None? ==> blocks == old(blocks) && index == old(index)
      ensures page.Some? ==> page.value in Unheld(old(blocks)) && blocks == old(blocks)[page.value := Block(1, None)]
      ensures page.Some? ==> index == Unindexed(old(blocks), old(index), page.value)
      ensures page.Some? ==> (page.value in old(free) <==> old(free) != {})
      ensures page.Some? && old(free) == {} ==> page.value == old(cached[0])
    {
      hide ListsOk, IndexOk, Unheld;
      UnheldAre(blocks, queue, free, used, cached, retain);
      page := PopFree();
      if page.Some? {
        Allocate(page.value);
      } else if cached != [] {
        assert cached[0] in Members(cached);
        var b := EvictOldestCached();
        Allocate(b);
        page := Some(b);
      }
    }

    /** Several pages at once, or none. */
    method AllocateMany(count: nat) returns (pages: Option<seq<nat>>)
      requires Valid()
      modifies this
      ensures Valid() && (pages.Some? <==> count <= |Unheld(old(blocks))|)
      ensures pages.None? ==> blocks == old(blocks) && index == old(index)
      ensures pages.Some? ==> |pages.value| == count && Taken(old(blocks), blocks, pages.value)
    {
      hide ListsOk, IndexOk, Unheld;
      var available := FreeCount();
      if count > available { return None; }
      var taken: seq<nat> := [];
      while |taken| < count
        invariant Valid() && |taken| <= count && Taken(old(blocks), blocks, taken)
      {
        ghost var was := blocks;
        NotAllTaken(old(blocks), blocks, taken);
        var page := AllocateFree();
        TakeOne(old(blocks), was, taken, page.value);
        taken := taken + [page.value];
      }
      pages := Some(taken);
    }

    /** One more owner; a cached page is revived. */
    method Retain(b: nat) returns (ok: bool)
      requires Valid()
      modifies this`blocks, this`cached
      ensures Valid() && (ok <==> b in used)
      ensures !ok ==> blocks == old(blocks)
      ensures ok ==> b < |old(blocks)| && blocks == old(blocks)[b := old(blocks[b]).(refs := old(blocks[b].refs) + 1)]
    {
      ok := b in used;
      if ok {
        if blocks[b].refs == 0 {
          WithoutOk(cached, b);
          cached := Without(cached, b);
        }
        blocks := blocks[b := blocks[b].(refs := blocks[b].refs + 1)];
      }
    }

    /** One owner less.  The last release caches a hashed page (if the pool retains) and frees any
        other; the result says whether it became free. */
    method ReleaseReference(b: nat) returns (freed: bool)
      requires Valid() && b in used && b < |blocks| && blocks[b].refs > 0
      modifies this`blocks, this`index, this`queue, this`free, this`used, this`cached
      ensures Valid() && freed == (old(blocks[b].refs) == 1 && !(retain && old(blocks[b].hash).Some?))
      ensures |blocks| == |old(blocks)| && blocks[b].refs == old(blocks[b].refs) - 1
      ensures blocks[b].hash == if freed then None else old(blocks[b].hash)
      ensures forall c :: 0 <= c < |blocks| && c != b ==> blocks[c] == old(blocks[c])
      ensures index == if freed then Unindexed(old(blocks), old(index), b) else old(index)
    {
      var left := blocks[b].(refs := blocks[b].refs - 1);
      freed := left.refs == 0 && !(retain && left.hash.Some?);
      if freed {
        index := Unindexed(blocks, index, b);
        blocks := blocks[b := Block(0, None)];
        used, free, queue := used - {b}, free + {b}, queue + [b];
        assert forall c :: c in old(queue) ==> c in queue;
        assert queue[|queue| - 1] == b;
      } else {
        blocks := blocks[b := left];
        if left.refs == 0 { cached := cached + [b]; }
      }
    }

    /** The page gets a hash, which from now on leads to it. */
    method RegisterHash(b: nat, hash: int)
      requires Valid() && b in used && b < |blocks| && blocks[b].refs > 0
      modifies this`blocks, this`index
      ensures Valid() && blocks == old(blocks)[b := old(blocks[b]).(hash := Some(hash))]
      ensures index == Unindexed(old(blocks), old(index), b)[hash := b]
    {
      index := Unindexed(blocks, index, b)[hash := b];
      blocks := blocks[b := blocks[b].(hash := Some(hash))];
    }

    /** The page loses its hash; only for pages in use, as the pool keeps no cached page without one. */
    method ClearHash(b: nat)
      requires Valid() && b in used && b < |blocks| && blocks[b].refs > 0
      modifies this`blocks, this`index
      ensures Valid() && blocks == old(blocks)[b := old(blocks[b]).(hash := None)]
      ensures index == Unindexed(old(blocks), old(index), b)
    {
      index := Unindexed(blocks, index, b);
      blocks := blocks[b := blocks[b].(hash := None)];
    }

    /** A page with this hash, held or cached. */
    method Lookup(hash: int) returns (page: Option<nat>)
      requires Valid()
      ensures page.Some? <==> hash in index
      ensures page.Some? ==> page.value in used && page.value < |blocks| && blocks[page.value].hash == Some(hash)
    {
      page := if hash in index then Some(index[hash]) else None;
    }
  }

  function Without(s: seq<nat>, b: nat): seq<nat> {
    if s == [] then [] else if s[0] == b then s[1..] else [s[0]] + Without(s[1..], b)
  }

  lemma {:induction false} WithoutOk(s: seq<nat>, b: nat)
    requires Distinct(s)
    ensures Distinct(Without(s, b)) && forall c :: c in Without(s, b) <==> c in s && c != b
  {
    if s != [] {
      WithoutOk(s[1..], b);
      assert s == [s[0]] + s[1..];
      assert s[0] !in s[1..];
      var rest := Without(s[1..], b);
      assert forall i :: 0 <= i < |rest| ==> rest[i] in rest;
    }
  }
}
