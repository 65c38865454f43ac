/** Capacity of the paged KV cache: which pages are free, which the retained prefixes would give
    back, and how each step changes their number. */
module KvCapacity {
  import opened Paging
  import opened KvState
  import opened KvSteps
  import opened KvPublishSteps
  import opened KvEntrySteps
  import opened FiniteSets

  // ----- free and reclaimable pages

  /** Pages nobody references: the pool's free and cached pages together. */
  function FreePages(s: State): set<nat> {
    set b | 0 <= b < |s.blocks| && s.blocks[b].refs == 0
  }

  /** A reference held by a retained prefix that may be evicted. */
  predicate Evictable(o: Owner, keep: set<Key>) { !o.OfSeq? && o.key !in keep }

  /** Pages whose references are all held by retained prefixes outside `keep`. */
  function Reclaimable(s: State, keep: set<Key>): set<nat> {
    set b | 0 <= b < |s.blocks| && s.blocks[b].refs > 0
            && |set o | o in s.blocks[b].owners && Evictable(o, keep)| == s.blocks[b].refs
  }

  ghost predicate Obtainable(b: Block, keep: set<Key>) { forall o :: o in b.owners ==> Evictable(o, keep) }

  /** Pages that are free or would become free if every prefix outside `keep` were evicted. */
  ghost function Available(s: State, keep: set<Key>): set<nat> {
    set b | 0 <= b < |s.blocks| && Obtainable(s.blocks[b], keep)
  }

  lemma CountIsAll(b: Block, keep: set<Key>)
    requires b.refs == |b.owners|
    ensures |set o | o in b.owners && Evictable(o, keep)| == b.refs <==> Obtainable(b, keep)
  {
    var some := set o | o in b.owners && Evictable(o, keep);
    if |some| == b.refs {
      assert |b.owners - some| == |b.owners| - |some|;
      assert b.owners - some == {};
    }
    if Obtainable(b, keep) {
      assert some == b.owners;
    }
  }

  /** The capacity that admission looks at, free plus reclaimable pages, is exactly the number of
      pages that eviction can produce. */
  lemma CapacityIsAvailable(s: State, keep: set<Key>)
    requires Inv(s)
    ensures |FreePages(s)| + |Reclaimable(s, keep)| == |Available(s, keep)|
  {
    forall b | 0 <= b < |s.blocks| ensures b in FreePages(s) + Reclaimable(s, keep) <==> b in Available(s, keep) {
      assert BlockOk(s.blocks[b], s.size);
      CountIsAll(s.blocks[b], keep);
      assert s.blocks[b].refs == 0 ==> s.blocks[b].owners == {};
    }
    assert FreePages(s) + Reclaimable(s, keep) == Available(s, keep);
    assert FreePages(s) !! Reclaimable(s, keep);
  }

  // ----- evictions

  /** Pages, requests and index stay; references of evictable prefixes may be gone. */
  ghost predicate Shrunk(s: State, t: State, keep: set<Key>) {
    && t.size == s.size && t.index == s.index && t.seqs == s.seqs && |t.blocks| == |s.blocks|
    && (forall b :: 0 <= b < |s.blocks| ==> BlockShrunk(s.blocks[b], t.blocks[b], keep))
    && t.entries.Keys <= s.entries.Keys
    && forall key :: key in keep && key in s.entries ==> key in t.entries && t.entries[key] == s.entries[key]
  }

  ghost predicate BlockShrunk(a: Block, b: Block, keep: set<Key>) {
    && b.hash == a.hash && b.rows == a.rows && b.owners <= a.owners && b.refs <= a.refs
    && forall o :: o in a.owners && !Evictable(o, keep) ==> o in b.owners
  }

  lemma ShrunkTransitive(s: State, t: State, u: State, keep: set<Key>)
    requires Shrunk(s, t, keep) && Shrunk(t, u, keep)
    ensures Shrunk(s, u, keep)
  {
    forall b | 0 <= b < |s.blocks| ensures BlockShrunk(s.blocks[b], u.blocks[b], keep) {
      assert BlockShrunk(s.blocks[b], t.blocks[b], keep) && BlockShrunk(t.blocks[b], u.blocks[b], keep);
    }
  }

  lemma ShrunkKeepsAvailable(s: State, t: State, keep: set<Key>)
    requires Shrunk(s, t, keep)
    ensures Available(t, keep) == Available(s, keep)
  {
    forall b | 0 <= b < |s.blocks| ensures b in Available(t, keep) <==> b in Available(s, keep) {
      assert BlockShrunk(s.blocks[b], t.blocks[b], keep);
    }
  }

  /** With nothing left to evict, what is available is free. */
  lemma NothingToEvict(s: State, keep: set<Key>)
    requires Inv(s) && s.entries.Keys <= keep
    ensures FreePages(s) == Available(s, keep)
  {
    forall b | 0 <= b < |s.blocks| ensures b in FreePages(s) <==> b in Available(s, keep) {
      assert BlockOk(s.blocks[b], s.size);
      if s.blocks[b].refs > 0 {
        var o :| o in s.blocks[b].owners;
        assert Held(s, b, o);
        assert !Evictable(o, keep);
      } else {
        assert s.blocks[b].owners == {};
      }
    }
  }

  lemma FreeIsAvailable(s: State, keep: set<Key>)
    requires Inv(s)
    ensures FreePages(s) <= Available(s, keep) && |FreePages(s)| <= |Available(s, keep)|
  {
    CapacityIsAvailable(s, keep);
    forall b | b in FreePages(s) ensures b in Available(s, keep) {
      assert BlockOk(s.blocks[b], s.size);
      assert s.blocks[b].owners == {};
    }
  }

  // ----- how steps use up free pages

  lemma AppendFreshUsesOne(s: State, id: nat, b: nat)
    requires id in s.seqs && b in FreePages(s)
    ensures |FreePages(AppendFresh(s, id, b))| == |FreePages(s)| - 1
  {
    assert FreePages(AppendFresh(s, id, b)) == FreePages(s) - {b};
  }

  lemma AppendHitUses(s: State, id: nat, b: nat)
    requires id in s.seqs && b < |s.blocks|
    ensures |FreePages(AppendHit(s, id, b))| == |FreePages(s)| - (if s.blocks[b].refs == 0 then 1 else 0)
  {
    assert FreePages(AppendHit(s, id, b)) == FreePages(s) - {b};
  }

  lemma ReplacePageUsesOne(s: State, id: nat, k: nat, b: nat, n: nat)
    requires id in s.seqs && k < |s.seqs[id].table| && s.seqs[id].table[k] < |s.blocks| && b in FreePages(s)
    requires s.blocks[s.seqs[id].table[k]].refs > 1
    requires n <= |s.blocks[s.seqs[id].table[k]].rows| == |s.blocks[b].rows|
    ensures |FreePages(ReplacePage(s, id, k, b, n))| == |FreePages(s)| - 1
  {
    assert FreePages(ReplacePage(s, id, k, b, n)) == FreePages(s) - {b};
  }

  lemma AdoptCloneUsesNone(s: State, id: nat, key: Key, c: nat)
    requires id in s.seqs && c < |s.blocks| && s.blocks[c].refs > 0
    ensures FreePages(AdoptClone(s, id, key, c)) == FreePages(s)
  {
  }

  lemma TakeCloneUsesNone(s: State, key: Key, b: nat)
    requires key in s.entries && b < |s.blocks| && s.blocks[b].refs > 0
    ensures FreePages(TakeClone(s, key, b)) == FreePages(s)
  {
  }

  // ----- pages of a request that others hold as well

  /** Pages from page `from` on that a request shares with somebody. */
  function SharedPages(s: State, id: nat, from: nat): set<nat>
    requires id in s.seqs
  {
    set k | from <= k < |s.seqs[id].table| && SharedPage(s, s.seqs[id].table[k])
  }

  predicate SharedPage(s: State, b: nat) { b < |s.blocks| && s.blocks[b].refs > 1 }

  /** A hit adds a page that the request does not have yet. */
  lemma HitIsNew(s: State, id: nat, b: nat)
    requires Inv(s) && id in s.seqs && Hits(s, id, b)
    ensures b !in s.seqs[id].table
  {
    var q := s.seqs[id];
    forall k | 0 <= k < |q.table| ensures q.table[k] != b {
      OwnedPage(s, id, k);
      StartMonotone(k + 1, |q.table| + 1, s.size);
      StartMonotone(k + 1, |q.table|, s.size);
    }
  }

  lemma AppendHitShares(s: State, id: nat, b: nat)
    requires id in s.seqs && b < |s.blocks| && b !in s.seqs[id].table
    ensures |SharedPages(AppendHit(s, id, b), id, 0)| == |SharedPages(s, id, 0)|
            + (if s.blocks[b].refs == 0 then 0 else 1)
  {
    var t := AppendHit(s, id, b);
    var old_, new_ := SharedPages(s, id, 0), SharedPages(t, id, 0);
    if s.blocks[b].refs == 0 {
      assert new_ == old_;
    } else {
      assert new_ == old_ + {|s.seqs[id].table|};
    }
  }

  lemma AppendFreshShares(s: State, id: nat, b: nat)
    requires id in s.seqs && b < |s.blocks| && b !in s.seqs[id].table
    ensures SharedPages(AppendFresh(s, id, b), id, 0) == SharedPages(s, id, 0)
  {
  }

  /** Replacing the first waiting page leaves one less to replace. */
  lemma ReplacePageShares(s: State, id: nat, k: nat, b: nat, n: nat)
    requires id in s.seqs && k < |s.seqs[id].table| && s.seqs[id].table[k] < |s.blocks| && b < |s.blocks|
    requires s.blocks[s.seqs[id].table[k]].refs > 1 && b !in s.seqs[id].table
    requires n <= |s.blocks[s.seqs[id].table[k]].rows| == |s.blocks[b].rows|
    ensures |SharedPages(ReplacePage(s, id, k, b, n), id, k + 1)| <= |SharedPages(s, id, k)| - 1
  {
    var left, right := SharedPages(ReplacePage(s, id, k, b, n), id, k + 1), SharedPages(s, id, k) - {k};
    assert k in SharedPages(s, id, k);
    assert left <= right;
    SubsetSize(left, right);
  }

  lemma UnhashShares(s: State, id: nat)
    requires id in s.seqs && s.seqs[id].dirty < |s.seqs[id].table| && s.seqs[id].table[s.seqs[id].dirty] < |s.blocks|
    requires s.blocks[s.seqs[id].table[s.seqs[id].dirty]].refs <= 1
    ensures SharedPages(Unhash(s, id), id, s.seqs[id].dirty + 1) == SharedPages(s, id, s.seqs[id].dirty)
    ensures FreePages(Unhash(s, id)) == FreePages(s)
  {
  }
}
