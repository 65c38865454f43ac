/** The block manager of prism_infer/engine/block_manager.py: admission, prefix sharing, eviction,
    copy on write and swapping, built from the page steps of KvSteps, KvPublishSteps and
    KvEntrySteps. */
module KvManager {
  import opened Paging
  import opened KvState
  import opened KvSteps
  import opened KvPublishSteps
  import opened KvEntrySteps
  import opened KvSwap
  import opened KvRuns
  import opened KvCapacity
  import opened KvAdmission
  import opened KvDecode
  import opened KvSlots

  /** Requests on the CPU hold no pages. */
  ghost predicate Parked(s: State, cpu: map<nat, Saved>) {
    SavedAll(s, cpu) && forall id :: id in cpu ==> s.seqs[id].table == []
  }

  /** What happens to another request does not concern those on the CPU. */
  lemma ParkedKept(s: State, t: State, id: nat, cpu: map<nat, Saved>)
    requires Parked(s, cpu) && OthersKept(s, t, id) && id !in cpu
    ensures Parked(t, cpu)
  {
    assert forall j :: j in cpu ==> t.seqs[j] == s.seqs[j];
  }

  lemma ParkedWith(s: State, t: State, cpu: map<nat, Saved>, id: nat, v: Saved)
    requires Parked(t, cpu) && OthersKept(s, t, id) && t.seqs[id].table == [] && SavedOk(s.seqs[id], v, s.size)
    ensures Parked(t, cpu[id := v])
  {
    SavedOkLonger(s.seqs[id], t.seqs[id], v, s.size);
  }

  lemma ParkedWithout(s: State, cpu: map<nat, Saved>, id: nat)
    requires Parked(s, cpu)
    ensures Parked(s, cpu - {id})
  {
  }

  datatype StoreResult = Raised | Rejected | Stored

  /** How a decode step ends.  PlanRaises is the exception of copy on write, PublishRaises that of the page table,
      which is asked for a page it does not have. */
  datatype Decoded = PlanRaises | PublishRaises | Appended

  /** What a decode step does to others: nothing, a page published although some of its rows are missing, or a
      row written to a published page. */
  datatype Harm = NoHarm | Gap | Stray

  class BlockManager {
    var kv: State
    var cpu: map<nat, Saved>
    const slots: nat

    /** The page cache is in order, and what was swapped out is what its requests had computed. */
    ghost predicate Valid()
      reads this
    {
      Good(kv) && Parked(kv, cpu) && |Slots(cpu)| <= slots
    }

    /** Pages of the sizes that the configuration supports start with arbitrary contents. */
    constructor (pages: nat, size: nat, slots: nat, garbage: seq<Key>)
      requires size > 1 && |garbage| == size
      ensures Valid() && Empty(kv) && |kv.blocks| == pages && kv.size == size && cpu == map[] && this.slots == slots
    {
      kv := State(size, seq(pages, i => Block(0, [], {}, garbage)), map[], map[], map[]);
      cpu := map[];
      this.slots := slots;
      new;
      assert Slots(cpu) == {};
    }

    // ----- eviction

    method GiveUpPages(key: Key, keep: set<Key>)
      requires Inv(kv) && key in kv.entries && key !in keep
      modifies this`kv
      ensures Inv(kv) && Evicting(old(kv), kv, key, keep) && kv.entries[key].blocks == []
    {
      hide Inv;
      while kv.entries[key].blocks != []
        invariant Inv(kv) && Evicting(old(kv), kv, key, keep)
        decreases |kv.entries[key].blocks|
      {
        EvictPageStep(old(kv), kv, key, keep);
        kv := DropPage(kv, key);
      }
    }

    method GiveUpClones(key: Key, keep: set<Key>)
      requires Inv(kv) && key in kv.entries && key !in keep && kv.entries[key].blocks == []
      modifies this`kv
      ensures Inv(kv) && Evicting(old(kv), kv, key, keep)
      ensures kv.entries[key].blocks == [] && kv.entries[key].clones == {}
    {
      while kv.entries[key].clones != {}
        invariant Inv(kv) && Evicting(old(kv), kv, key, keep) && kv.entries[key].blocks == []
        decreases kv.entries[key].clones
      {
        var c :| c in kv.entries[key].clones;
        EvictCloneStep(old(kv), kv, key, keep, c);
        kv := DropClone(kv, key, c);
      }
    }

    /** Give up every page of a retained prefix, then the prefix. */
    method Evict(key: Key, keep: set<Key>)
      requires Inv(kv) && key in kv.entries && key !in keep
      modifies this`kv
      ensures Inv(kv) && Shrunk(old(kv), kv, keep) && OnlyOfMissing(old(kv), kv, key)
      ensures kv.entries == old(kv).entries - {key}
    {
      GiveUpPages(key, keep);
      ghost var was := kv;
      GiveUpClones(key, keep);
      EvictingTransitive(old(kv), was, kv, key, keep);
      RemoveEntryKeepsInv(kv, key);
      EvictingEnds(old(kv), kv, key, keep);
      kv := RemoveEntry(kv, key);
    }

    /** Release one tail clone that no request uses. */
    method DropIdleClone(keep: set<Key>) returns (dropped: bool)
      requires Inv(kv) && Whole(kv, {})
      modifies this`kv
      ensures Inv(kv) && Whole(kv, {}) && Shrunk(old(kv), kv, keep)
      ensures kv.entries.Keys == old(kv.entries.Keys) && (dropped ==> Clones(kv) < Clones(old(kv)))
      ensures !dropped ==> kv == old(kv)
    {
      dropped := false;
      if key, c :| key in kv.entries && c in kv.entries[key].clones && key !in keep && kv.blocks[c].refs == 1 {
        DropCloneKeepsInv(kv, key, c);
        DropCloneShrinks(kv, key, c, keep);
        kv := DropClone(kv, key, c);
        dropped := true;
      }
    }

    /** Evict until enough pages are free.  It succeeds exactly if the free pages and the pages of
        retained prefixes outside `keep` are enough; which prefix goes first does not matter. */
    method EnsureFree(required: nat, keep: set<Key>) returns (ok: bool)
      requires Inv(kv) && Whole(kv, {})
      modifies this`kv
      ensures Inv(kv) && Whole(kv, {}) && Shrunk(old(kv), kv, keep)
      ensures ok <==> required <= |Available(old(kv), keep)|
      ensures ok <==> required <= |FreePages(kv)|
      ensures !ok ==> kv.entries.Keys <= keep
      ensures required <= |FreePages(old(kv))| ==> kv == old(kv)
    {
      hide Inv;
      var done := false;
      while |FreePages(kv)| < required && !done
        invariant Inv(kv) && Whole(kv, {}) && Shrunk(old(kv), kv, keep)
        invariant required <= |FreePages(old(kv))| ==> kv == old(kv)
        invariant done ==> kv.entries.Keys <= keep
        decreases kv.entries.Keys, Clones(kv), !done
      {
        ghost var was := kv;
        var dropped := DropIdleClone(keep);
        ShrunkTransitive(old(kv), was, kv, keep);
        if !dropped {
          if kv.entries.Keys <= keep {
            done := true;
          } else {
            assert kv.entries.Keys - keep != {};
            var key :| key in kv.entries.Keys - keep;
            Evict(key, keep);
            ShrunkTransitive(old(kv), was, kv, keep);
          }
        }
      }
      ok := required <= |FreePages(kv)|;
      ShrunkKeepsAvailable(old(kv), kv, keep);
      FreeIsAvailable(kv, keep);
      if done { NothingToEvict(kv, keep); }
    }

    // ----- admission

    /** Pages for all tokens of a request: hits up to the first miss, fresh pages from then on.  Once
        room was made, none of it can fail. */
    method AllocateTable(id: nat, n: nat, limit: nat)
      requires Good(kv) && id in kv.seqs && kv.seqs[id].table == []
      requires kv.seqs[id].computed == kv.seqs[id].published == 0
      requires limit <= n <= |FreePages(kv)|
      modifies this`kv
      ensures Allocating(old(kv), kv, id, n, n, true)
      ensures kv.seqs[id].published == Chain(old(kv).index, kv.seqs[id].tokens, kv.size, 0, limit)
    {
      hide Inv;
      var i, miss := 0, false;
      assert SharedPages(kv, id, 0) == {};
      while i < n
        invariant i <= n && Allocating(old(kv), kv, id, i, n, miss)
        invariant Walked(old(kv).index, kv.seqs[id].tokens, kv.size, i, limit, miss, kv.seqs[id].published)
      {
        if !miss {
          WalkOn(kv.index, kv.seqs[id].tokens, kv.size, i, limit);
        }
        if !miss && Hittable(kv.index, kv.seqs[id].tokens, kv.size, i, limit) {
          HitAt(old(kv), kv, id, i, n, limit);
          var b := kv.index[kv.seqs[id].tokens[..Start(i + 1, kv.size)]];
          AllocHit(old(kv), kv, id, i, n, b);
          kv := AppendHit(kv, id, b);
        } else {
          var b :| b in FreePages(kv);
          AllocFresh(old(kv), kv, id, i, n, miss, b);
          kv := AppendFresh(kv, id, b);
          miss := true;
        }
        i := i + 1;
      }
    }

    /** The next waiting page becomes private: alone it loses its hash, shared it is copied. */
    method PrivatizePage(id: nat, first: nat, k: nat, end: nat)
      requires k < end && Privatizing(kv, kv, id, first, k, end)
      modifies this`kv
      ensures Privatizing(old(kv), kv, id, first, k + 1, end)
      ensures kv.seqs[id].computed == old(kv).seqs[id].computed
    {
      OwnedPage(kv, id, k);
      if kv.blocks[kv.seqs[id].table[k]].refs <= 1 {
        UnhashOne(kv, kv, id, first, k, end);
        kv := Unhash(kv, id);
      } else {
        assert k in SharedPages(kv, id, k);
        var b :| b in FreePages(kv);
        PrivatizeReady(kv, kv, id, first, k, end, b);
        var n := RetainedRows(kv.seqs[id], k, kv.size);
        PrivatizeOne(kv, kv, id, first, k, end, b, n);
        kv := ReplacePage(kv, id, k, b, n);
      }
    }

    method PrivatizeAll(id: nat, first: nat, end: nat)
      requires Privatizing(kv, kv, id, first, first, end)
      modifies this`kv
      ensures Privatizing(old(kv), kv, id, first, end, end)
      ensures kv.seqs[id].computed == old(kv).seqs[id].computed
    {
      var k := first;
      while k < end
        invariant Privatizing(old(kv), kv, id, first, k, end) && kv.seqs[id].computed == old(kv).seqs[id].computed
      {
        ghost var was := kv;
        PrivatizingFrom(old(kv), was, id, first, k, end);
        PrivatizePage(id, first, k, end);
        PrivatizingOn(old(kv), was, kv, id, first, k, end);
        k := k + 1;
      }
    }

    /** A hit that ends inside an image is cut back to the start of the image; the pages that will be
        computed again become private first. */
    method MakePrivate(id: nat, n: nat)
      requires id in kv.seqs && Allocating(kv, kv, id, n, n, true)
      modifies this`kv
      ensures Inv(kv) && OthersKept(old(kv), kv, id) && kv.entries == old(kv).entries
      ensures |kv.seqs[id].table| == n && kv.seqs[id].dirty == kv.seqs[id].dirtyEnd == 0
      ensures kv.seqs[id].computed == SnapToImage(kv.seqs[id].spans, old(kv).seqs[id].computed)
      ensures Caught(kv.seqs[id], kv.size)
    {
      var q := kv.seqs[id];
      var snapped := SnapToImage(q.spans, q.computed);
      if snapped != q.computed {
        var first := PageOf(snapped, kv.size);
        SnapFits(kv.size, snapped, q.computed, first, q.published);
        StartPrivatizing(kv, id, n, first, snapped);
        kv := Snap(kv, id, first, snapped);
        ghost var was := kv;
        PrivatizingFrom(old(kv), kv, id, first, first, q.published);
        PrivatizeAll(id, first, q.published);
        EndPrivatizing(old(kv), was, kv, id, first, q.published);
        kv := Rest(kv, id);
      }
    }

    /** Admission without a retained prefix: pages for all tokens, of which a walk through the index finds
        the first ones computed. */
    method AllocateDense(id: nat)
      requires Good(kv) && id in kv.seqs && kv.seqs[id].table == []
      requires kv.seqs[id].computed == kv.seqs[id].published == 0
      requires PagesFor(|kv.seqs[id].tokens|, kv.size) <= |Available(kv, {})|
      modifies this`kv
      ensures Good(kv) && OthersKept(old(kv), kv, id)
      ensures |kv.seqs[id].table| == PagesFor(|kv.seqs[id].tokens|, kv.size)
      ensures kv.seqs[id].computed == WalkedPrefix(old(kv), id) && Caught(kv.seqs[id], kv.size)
    {
      hide Inv, Shape, Whole, SnapToImage, Chain;
      var n, limit := PagesFor(|kv.seqs[id].tokens|, kv.size), Walkable(kv.seqs[id], kv.size);
      WalkableFits(kv.seqs[id], kv.size);
      var ok := EnsureFree(n, {});
      ghost var roomy := kv;
      AllocateTable(id, n, limit);
      ghost var was := kv;
      MakePrivate(id, n);
      StaysGood(roomy, kv, id);
    }

    /** Take over the complete pages of a retained prefix. */
    method TakeOver(id: nat, key: Key, n: nat, ghost spare: int)
      requires TakenOver(kv, kv, id, key, 0, n, spare)
      modifies this`kv
      ensures key in kv.entries && TakenOver(old(kv), kv, id, key, kv.entries[key].full, n, spare)
      ensures forall c :: c in kv.entries[key].clones && IsIdle(old(kv), c) ==> IsIdle(kv, c)
    {
      var i := 0;
      while i < kv.entries[key].full
        invariant key in kv.entries && i <= kv.entries[key].full && TakenOver(old(kv), kv, id, key, i, n, spare)
        invariant forall c :: c in kv.entries[key].clones && IsIdle(old(kv), c) ==> IsIdle(kv, c)
        decreases kv.entries[key].full - i
      {
        TakeOverStep(old(kv), kv, id, key, i, n, spare);
        forall c | c in kv.entries[key].clones && IsIdle(kv, c) ensures kv.entries[key].blocks[i] != c {
          PageIsNotIdle(kv, key, i, c);
        }
        kv := AppendHit(kv, id, kv.entries[key].blocks[i]);
        i := i + 1;
      }
    }

    /** Fresh pages up to the n-th, for an allocation that began in state s0. */
    method FillTable(id: nat, n: nat, ghost s0: State)
      requires id in kv.seqs && Filling(s0, kv, id, |kv.seqs[id].table|, n, 0)
      modifies this`kv
      ensures Filling(s0, kv, id, n, n, 0) && kv.entries == old(kv).entries
      ensures kv.seqs[id].computed == old(kv).seqs[id].computed && kv.seqs[id].published == old(kv).seqs[id].published
    {
      var i := |kv.seqs[id].table|;
      while i < n
        invariant i <= n && Filling(s0, kv, id, i, n, 0) && kv.entries == old(kv).entries
        invariant kv.seqs[id].computed == old(kv).seqs[id].computed
        invariant kv.seqs[id].published == old(kv).seqs[id].published
      {
        var b :| b in FreePages(kv);
        FillStep(s0, kv, id, i, n, 0, b);
        kv := AppendFresh(kv, id, b);
        i := i + 1;
      }
    }

    method CopyTailPage(id: nat, key: Key, n: nat) returns (b: nat)
      requires key in kv.entries && kv.entries[key].full < n && kv.entries[key].full < |kv.entries[key].blocks|
      requires TakenOver(kv, kv, id, key, kv.entries[key].full, n, n - kv.entries[key].full)
      modifies this`kv
      ensures kv.entries == old(kv).entries && Filling(old(kv), kv, id, kv.entries[key].full + 1, n, 0)
      ensures HasCopy(kv, id, key, b)
    {
      b :| b in FreePages(kv);
      CopyTail(kv, id, key, n, b);
      var rows := Copied(kv.blocks[kv.entries[key].blocks[kv.entries[key].full]], kv.blocks[b], kv.entries[key].tail);
      CopiedTail(kv, kv, id, key, n, b, rows);
      kv := LoadPage(AppendFresh(kv, id, b), id, rows, |key|);
    }

    /** The unfinished page of the prefix is never shared: an idle tail clone is reused, or its rows
        are copied to a fresh page, which may be kept as a clone. */
    method TakeTail(id: nat, key: Key, n: nat, keepClone: bool)
      requires key in kv.entries && kv.entries[key].full < n && kv.entries[key].full < |kv.entries[key].blocks|
      requires kv.entries[key].tail > 0
      requires TakenOver(kv, kv, id, key, kv.entries[key].full, n,
               n - kv.entries[key].full - (if HasIdleClone(kv, key) then 1 else 0))
      modifies this`kv
      ensures kv.entries.Keys == old(kv).entries.Keys && Filling(old(kv), kv, id, old(kv).entries[key].full + 1, n, 0)
      ensures forall j :: j in kv.entries ==> kv.entries[j].(clones := {}) == old(kv).entries[j].(clones := {})
      ensures kv.seqs[id].computed == |key| && kv.seqs[id].published == old(kv).entries[key].full
    {
      hide Inv;
      if c :| c in kv.entries[key].clones && IsIdle(kv, c) {
        AdoptTail(kv, kv, id, key, n, c);
        kv := AdoptClone(kv, id, key, c);
      } else {
        var b := CopyTailPage(id, key, n);
        if keepClone {
          KeepCopy(old(kv), kv, id, key, n, b);
          kv := TakeClone(kv, key, b);
        }
      }
    }

    /** Evict for a prefix hit; the prefix itself is protected. */
    method MakeRoomForHit(id: nat, key: Key, n: nat)
      requires Good(kv) && id in kv.seqs && key in kv.entries && key == OwnKey(kv.seqs[id])
      requires n == PagesFor(kv.seqs[id].prompt, kv.size) && RequiredForHit(kv, id, key) <= |Available(kv, {key})|
      modifies this`kv
      ensures Good(kv) && kv.seqs == old(kv).seqs && kv.size == old(kv).size && |kv.blocks| == |old(kv).blocks|
      ensures key in kv.entries && kv.entries[key] == old(kv).entries[key]
      ensures RequiredForHit(kv, id, key) <= |FreePages(kv)|
    {
      hide Inv;
      PrefixPagesFit(kv, id, key);
      var ok := EnsureFree(RequiredForHit(kv, id, key), {key});
      if HasIdleClone(old(kv), key) {
        var c :| c in old(kv).entries[key].clones && IsIdle(old(kv), c);
        IdleStaysIdle(old(kv), kv, key, c);
      }
    }

    /** Complete pages are shared, the tail is copied. */
    method ReusePages(id: nat, key: Key, n: nat, keepClone: bool)
      requires Good(kv) && id in kv.seqs && key in kv.entries && key == OwnKey(kv.seqs[id])
      requires kv.seqs[id].table == [] && kv.seqs[id].computed == kv.seqs[id].published == 0
      requires n == PagesFor(kv.seqs[id].prompt, kv.size) && RequiredForHit(kv, id, key) <= |FreePages(kv)|
      modifies this`kv
      ensures key in kv.entries && Filling(old(kv), kv, id, |old(kv).entries[key].blocks|, n, 0)
      ensures Whole(kv, {}) && kv.seqs[id].computed == |key| && Caught(kv.seqs[id], kv.size)
    {
      PrefixPagesFit(kv, id, key);
      assert EntryOk(kv, key);
      var full, tail := kv.entries[key].full, kv.entries[key].tail > 0;
      TakeOver(id, key, n, RequiredForHit(kv, id, key));
      if tail {
        ghost var was := kv;
        TakeTail(id, key, n, keepClone);
        FillingFrom(old(kv), was, kv, id, full + 1, n);
      }
    }

    method AllocateEntryHit(id: nat, key: Key, keepClone: bool)
      requires Good(kv) && id in kv.seqs && kv.seqs[id].table == []
      requires kv.seqs[id].computed == kv.seqs[id].published == 0
      requires key in kv.entries && key == OwnKey(kv.seqs[id]) && RequiredForHit(kv, id, key) <= |Available(kv, {key})|
      modifies this`kv
      ensures Good(kv) && OthersKept(old(kv), kv, id)
      ensures |kv.seqs[id].table| == PagesFor(kv.seqs[id].prompt, kv.size)
      ensures kv.seqs[id].computed == |key| && Caught(kv.seqs[id], kv.size)
    {
      hide Inv, SpansOk, BoundaryOf;
      var n := PagesFor(kv.seqs[id].prompt, kv.size);
      MakeRoomForHit(id, key, n);
      ghost var was := kv;
      ReusePages(id, key, n, keepClone);
      FillTable(id, n, was);
    }

    /** Admission: it fails only if the scheduler's capacity test says so, and then changes nothing.  With
        a retained prefix there are pages for the prompt only, otherwise for all tokens. */
    method Allocate(id: nat, keepClone: bool) returns (ok: bool)
      requires Valid() && id in kv.seqs && id !in cpu
      requires kv.seqs[id].table == [] && kv.seqs[id].computed == kv.seqs[id].published == 0
      modifies this`kv
      ensures ok == CanAllocate(old(kv), id)
      ensures !ok ==> kv == old(kv)
      ensures Valid() && OthersKept(old(kv), kv, id)
      ensures ok ==> var q := kv.seqs[id];
                     && |q.table| == PagesFor(if OwnKey(q) in old(kv).entries then q.prompt else |q.tokens|, kv.size)
                     && q.computed == ReusedPrefix(old(kv), id) && Caught(q, kv.size)
    {
      ok := CanAllocate(kv, id);
      if ok {
        var key := OwnKey(kv.seqs[id]);
        CapacityIsAvailable(kv, {key});
        CapacityIsAvailable(kv, {});
        if key in kv.entries {
          assert EntryOk(kv, key) && SeqOk(kv, id);
          AllocateEntryHit(id, key, keepClone);
        } else {
          AllocateDense(id);
        }
        ParkedKept(old(kv), kv, id, cpu);
      }
    }

    // ----- prefill

    /** The model computes the next row of a request. */
    method ComputeRow(id: nat, ghost s0: State)
      requires id in kv.seqs && Computing(s0, kv, id)
      requires kv.seqs[id].computed < |kv.seqs[id].tokens| && kv.seqs[id].computed < Start(|kv.seqs[id].table|, kv.size)
      modifies this`kv
      ensures Computing(s0, kv, id) && kv.seqs[id].computed == old(kv).seqs[id].computed + 1
    {
      ComputeNext(s0, kv, id);
      kv := WriteNextRow(kv, id);
    }

    /** The model computes the rows of a request up to position `end`. */
    method ComputeRows(id: nat, end: nat)
      requires Good(kv) && id in kv.seqs && kv.seqs[id].computed <= end <= |kv.seqs[id].tokens|
      requires end <= Start(|kv.seqs[id].table|, kv.size)
      modifies this`kv
      ensures Computing(old(kv), kv, id) && kv.seqs[id].computed == end
    {
      while kv.seqs[id].computed < end
        invariant id in kv.seqs && Computing(old(kv), kv, id) && kv.seqs[id].computed <= end
        decreases end - kv.seqs[id].computed
      {
        ComputeRow(id, old(kv));
      }
    }

    /** Complete pages of a computed range enter the prefix index, each under the history that the
        page before it ends. */
    method PublishComputed(id: nat, start: nat, end: nat)
      requires Good(kv) && id in kv.seqs && start <= end == kv.seqs[id].computed
      requires kv.seqs[id].published == PageOf(start, kv.size)
      modifies this`kv
      ensures kv.size == old(kv).size && Publishing(old(kv), kv, id, PageOf(end, old(kv).size))
    {
      hide Inv;
      var k: nat := PageOf(start, kv.size);
      PageRangeGrows(start, end, kv.size);
      while k < PageOf(end, kv.size)
        invariant id in kv.seqs && Publishing(old(kv), kv, id, k) && k <= PageOf(end, old(kv).size)
      {
        PublishOne(old(kv), kv, id, k);
        kv := PublishNext(kv, id);
        k := k + 1;
      }
    }

    /** One chunk of the prompt. */
    method Prefill(id: nat, end: nat)
      requires Valid() && id in kv.seqs && id !in cpu
      requires kv.seqs[id].computed <= end <= kv.seqs[id].prompt <= |kv.seqs[id].tokens|
      requires |kv.seqs[id].table| >= PagesFor(kv.seqs[id].prompt, kv.size) && Caught(kv.seqs[id], kv.size)
      modifies this`kv
      ensures Valid() && OthersKept(old(kv), kv, id) && Caught(kv.seqs[id], kv.size)
      ensures kv.seqs[id] == old(kv).seqs[id].(computed := end, published := kv.seqs[id].published)
    {
      hide Inv, Shape, Whole, Parked, Slots;
      var start := kv.seqs[id].computed;
      PagesCover(kv.seqs[id].prompt, kv.size);
      StartMonotone(PagesFor(kv.seqs[id].prompt, kv.size), |kv.seqs[id].table|, kv.size);
      CaughtUp(kv.seqs[id], kv.size);
      ComputeRows(id, end);
      PublishComputed(id, start, end);
      CaughtUp(kv.seqs[id], kv.size);
      ParkedKept(old(kv), kv, id, cpu);
    }

    /** Make room among the retained prefixes; how much, and whether to give up, is left open. */
    method ShrinkCache() returns (room: bool)
      requires Good(kv)
      modifies this`kv
      ensures Good(kv) && Shrunk(old(kv), kv, {})
    {
      hide Inv;
      room := true;
      var more := *;
      while more && room
        invariant Good(kv) && Shrunk(old(kv), kv, {})
        decreases kv.entries.Keys, Clones(kv), room
      {
        ghost var was := kv;
        var dropped := DropIdleClone({});
        if !dropped {
          if key :| key in kv.entries {
            var worthwhile := *;
            if worthwhile { Evict(key, {}); } else { room := false; }
          } else {
            room := false;
          }
        }
        ShrunkTransitive(old(kv), was, kv, {});
        more := *;
      }
    }

    /** Retain the prompt up to the last image: the pages of its request, shared.  A request that was itself
        a prefix hit is left alone; one that has produced tokens already, because it was sent back and
        computed its prompt again, raises an exception. */
    method StorePrefix(id: nat, hit: bool) returns (r: StoreResult)
      requires Valid() && id in kv.seqs && id !in cpu
      requires kv.seqs[id].computed == kv.seqs[id].prompt && Caught(kv.seqs[id], kv.size)
      modifies this`kv
      ensures Valid() && kv.seqs == old(kv).seqs && |kv.blocks| == |old(kv).blocks| && kv.size == old(kv).size
      ensures r == Raised <==> kv.seqs[id].boundary > 0 && !hit && |kv.seqs[id].tokens| != kv.seqs[id].prompt
      ensures r == Raised ==> kv == old(kv)
      ensures r == Stored ==> !hit && OwnKey(kv.seqs[id]) !in old(kv).entries && OwnKey(kv.seqs[id]) in kv.entries
      ensures r == Stored ==>
                var e := kv.entries[OwnKey(kv.seqs[id])];
                |e.blocks| <= |kv.seqs[id].table| && e.blocks == kv.seqs[id].table[..|e.blocks|]
    {
      var q := kv.seqs[id];
      if q.boundary == 0 || hit { return Rejected; }
      if |q.tokens| != q.prompt { return Raised; }
      if OwnKey(q) in kv.entries { return Rejected; }
      var stored := StoreNew(id);
      return if stored then Stored else Rejected;
    }

    method StoreNew(id: nat) returns (stored: bool)
      requires Valid() && id in kv.seqs && kv.seqs[id].boundary > 0 && OwnKey(kv.seqs[id]) !in kv.entries
      requires kv.seqs[id].computed == kv.seqs[id].prompt && Caught(kv.seqs[id], kv.size)
      modifies this`kv
      ensures Valid() && kv.seqs == old(kv).seqs && |kv.blocks| == |old(kv).blocks| && kv.size == old(kv).size
      ensures stored ==> OwnKey(kv.seqs[id]) in kv.entries
      ensures stored ==>
                var e := kv.entries[OwnKey(kv.seqs[id])];
                |e.blocks| <= |kv.seqs[id].table| && e.blocks == kv.seqs[id].table[..|e.blocks|]
    {
      hide Inv, Shape;
      var key := OwnKey(kv.seqs[id]);
      var full := PageOf(|key|, kv.size);
      PrefixToStore(kv, id, full);
      var tail := |key| - Start(full, kv.size);
      stored := ShrinkCache();
      if !stored { return; }
      ghost var was := kv;
      StoreStart(kv, id, key, full, tail);
      kv := NewEntry(kv, key, full, tail);
      var k := 0;
      while k < full + (if tail > 0 then 1 else 0)
        invariant Storing(was, kv, id, key, full, tail, k)
      {
        StoreOne(was, kv, id, key, full, tail, k);
        kv := TakePage(kv, key, kv.seqs[id].table[k]);
        k := k + 1;
      }
    }

    // ----- decoding

    /** Find a free page for a copy of the last page: by evicting prefixes other than the request's
        own, else, if that one holds the page, by evicting it too. */
    method MakeRoomForCopy(id: nat) returns (ok: bool)
      requires Good(kv) && id in kv.seqs && !OwnTail(kv, id)
      modifies this`kv
      ensures ok <==> CanCopy(old(kv), id)
      ensures Evicted(old(kv), kv)
      ensures ok ==> OwnTail(kv, id) || FreePages(kv) != {}
      ensures FreePages(old(kv)) != {} ==> kv == old(kv)
    {
      hide Inv;
      var key := OwnKey(kv.seqs[id]);
      ok := EnsureFree(1, Match(kv, id));
      if !ok && CacheOwnsTail(kv, id) {
        ghost var was := kv;
        Evict(key, {});
        LastResort(old(kv), was, kv, id);
        ok := OwnTail(kv, id);
        if !ok {
          ok := EnsureFree(1, {});
        }
      }
    }

    method CopyTailTo(id: nat, b: nat)
      requires Good(kv) && id in kv.seqs && kv.seqs[id].table != [] && b in FreePages(kv)
      modifies this`kv
      ensures TailCopied(old(kv), kv, id) && HasOpenTail(kv.seqs[id])
    {
      hide Inv, TailCopied, Shape, Whole;
      var k := |kv.seqs[id].table| - 1;
      if kv.seqs[id].published <= k {
        ReplaceTailReady(kv, id, k, b);
        ReplaceTailDone(kv, id, k, b);
        CopyStaysOpen(kv, id, k, b);
        kv := ReplacePage(kv, id, k, b, kv.size);
      } else {
        ReopenedTailDone(kv, id, b);
        kv := Rest(ReplacePage(Reopened(kv, id), id, k, b, kv.size), id);
      }
    }

    /** Make the last page of a request its own.  The exception of the source, the result false, is raised
        exactly if no page can be had. */
    method CopyOnWrite(id: nat) returns (ok: bool)
      requires Good(kv) && id in kv.seqs
      modifies this`kv
      ensures ok <==> CanCopy(old(kv), id)
      ensures if ok then TailCopied(old(kv), kv, id) else Evicted(old(kv), kv)
      ensures OwnTail(old(kv), id) ==> kv == old(kv)
      ensures ok && !OwnTail(old(kv), id) && (FreePages(old(kv)) != {} || OthersHoldTail(old(kv), id)) ==>
                HasOpenTail(kv.seqs[id])
    {
      hide Inv;
      ok := true;
      if !OwnTail(kv, id) {
        ok := MakeRoomForCopy(id);
      }
      if ok && !OwnTail(kv, id) {
        ghost var was := kv;
        var b :| b in FreePages(kv);
        CopyTailTo(id, b);
        TailCopiedFrom(old(kv), was, kv, id);
      } else if ok {
        if !OwnTail(old(kv), id) { OthersStillHold(old(kv), kv, id); }
        TailIsOwn(old(kv), kv, id);
      }
    }

    /** A new page when the next token crosses a page boundary. */
    method MayAppend(id: nat) returns (ok: bool)
      requires Good(kv) && kv.size > 1 && id in kv.seqs
      modifies this`kv
      ensures Good(kv) && OthersKept(old(kv), kv, id)
      ensures ok <==> (Crosses(kv.seqs[id], kv.size) ==> |Available(old(kv), {})| > 0)
      ensures !Crosses(kv.seqs[id], kv.size) ==> kv == old(kv)
      ensures !ok ==> kv.seqs == old(kv).seqs
      ensures kv.seqs[id] == old(kv).seqs[id].(table := kv.seqs[id].table)
      ensures ok && Crosses(kv.seqs[id], kv.size) ==>
                old(kv).seqs[id].table <= kv.seqs[id].table && OwnTail(kv, id)
                && |kv.seqs[id].table| == |old(kv).seqs[id].table| + 1
    {
      hide Inv, Shape;
      ok := true;
      if Crosses(kv.seqs[id], kv.size) {
        ok := EnsureFree(1, {});
        if ok {
          var b :| b in FreePages(kv);
          AppendForDecode(kv, id, b);
          kv := AppendFresh(kv, id, b);
        }
      }
    }

    /** The scheduler's plan for one decoding request: a last page of its own, and a new one if the next row
        starts a page.  It succeeds exactly if that can be had; the scheduler's own test never promises more to a
        request with enough pages.  A published last page that someone else holds is copied, unless giving up
        the retained prefixes leaves it to the request. */
    method PlanDecode(id: nat) returns (ok: bool)
      requires Good(kv) && kv.size > 1 && id in kv.seqs
      modifies this`kv
      ensures ok <==> CanPlan(old(kv), id)
      ensures Decodes(old(kv), id) && CanAppend(old(kv), id) ==> ok
      ensures Good(kv) && OthersKept(old(kv), kv, id) && (ok ==> OwnTail(kv, id))
      ensures var q0, q := old(kv).seqs[id], kv.seqs[id]; q == q0.(table := q.table, published := q.published)
      ensures !ok ==> kv.seqs[id] == old(kv).seqs[id]
      ensures ok ==> var q0, q := old(kv).seqs[id], kv.seqs[id];
                     && |q.table| == |q0.table| + (if Crosses(q0, kv.size) then 1 else 0)
                     && (q.published == q0.published ||
                         (!Crosses(q0, kv.size) && !HasOpenTail(q0) && q.published == |q.table| - 1))
      ensures ok && !Crosses(old(kv).seqs[id], kv.size) ==>
                && (OwnTail(old(kv), id) ==> kv.seqs[id] == old(kv).seqs[id])
                && (!OwnTail(old(kv), id) && (FreePages(old(kv)) != {} || OthersHoldTail(old(kv), id)) ==>
                    HasOpenTail(kv.seqs[id]))
    {
      hide Inv, Shape, Whole;
      if Decodes(kv, id) && CanAppend(kv, id) { CanAppendSuffices(kv, id); }
      ok := true;
      if !Crosses(kv.seqs[id], kv.size) {
        ok := CopyOnWrite(id);
      }
      if ok {
        ok := MayAppend(id);
      }
    }

    // ----- release and swapping

    /** Give up every page of a request: whatever only it held becomes free. */
    method Release(id: nat)
      requires Valid() && id in kv.seqs && id !in cpu
      modifies this`kv
      ensures Valid() && OthersKept(old(kv), kv, id) && kv.entries == old(kv).entries && kv.index == old(kv).index
      ensures kv.seqs[id].table == [] && kv.seqs[id].computed == kv.seqs[id].published == 0
      ensures Released(old(kv), kv, id)
    {
      hide Inv, Shape;
      while kv.seqs[id].table != []
        invariant id in kv.seqs && Releasing(old(kv), kv, id)
        decreases |kv.seqs[id].table|
      {
        ReleaseOne(old(kv), kv, id);
        kv := PopPage(kv, id);
      }
      AllReleased(old(kv), kv, id);
      ParkedKept(old(kv), kv, id, cpu);
    }

    /** Move a request to the CPU, if that has a slot for each of its pages. */
    method SwapOut(id: nat) returns (ok: bool)
      requires Valid() && id in kv.seqs && id !in cpu
      modifies this
      ensures Valid()
      ensures ok <==> old(kv).seqs[id].table != [] && |Slots(old(cpu))| + |old(kv).seqs[id].table| <= slots
      ensures !ok ==> kv == old(kv) && cpu == old(cpu)
      ensures ok ==> OthersKept(old(kv), kv, id) && kv.entries == old(kv).entries && kv.seqs[id].table == []
      ensures ok ==> kv.seqs[id].computed == kv.seqs[id].published == 0
      ensures ok ==> cpu.Keys == old(cpu).Keys + {id} && (forall j :: j in old(cpu) ==> cpu[j] == old(cpu)[j])
      ensures ok ==> && cpu[id].computed == old(kv).seqs[id].computed && cpu[id].published == old(kv).seqs[id].published
                     && (SavedPages(old(kv), id); cpu[id].pages == PagesOf(old(kv), id))
    {
      hide Inv, Shape, Whole, Slots, Released, SavedOk, Parked;
      SavedPages(kv, id);
      ok := kv.seqs[id].table != [] && |Slots(cpu)| + |kv.seqs[id].table| <= slots;
      if ok {
        var saved := Saved(kv.seqs[id].computed, kv.seqs[id].published, PagesOf(kv, id));
        Release(id);
        ParkedWith(old(kv), kv, cpu, id, saved);
        SavingTakesSlots(cpu, id, saved);
        cpu := cpu[id := saved];
      }
    }

    /** Bring a request back.  It is as it was when it left, on other pages. */
    method SwapIn(id: nat) returns (ok: bool)
      requires Valid() && id in cpu
      modifies this
      ensures Valid() && id in kv.seqs && OthersKept(old(kv), kv, id)
      ensures ok <==> |old(cpu)[id].pages| <= |Available(old(kv), {})|
      ensures !ok ==> cpu == old(cpu) && kv.seqs[id] == old(kv).seqs[id]
      ensures ok ==> cpu == old(cpu) - {id} && |kv.seqs[id].table| == |old(cpu)[id].pages|
      ensures ok ==> kv.seqs[id].computed == old(cpu)[id].computed && kv.seqs[id].published == old(cpu)[id].published
    {
      hide Inv, Shape;
      var v := cpu[id];
      ok := EnsureFree(|v.pages|, {});
      if ok {
        ghost var was := kv;
        RestorePages(id, v);
        ParkedWithout(was, cpu, id);
        ParkedKept(was, kv, id, cpu - {id});
        LeavingFreesSlots(cpu, id);
        cpu := cpu - {id};
      }
    }

    /** Page by page. */
    method RestorePages(id: nat, v: Saved)
      requires Good(kv) && id in kv.seqs && kv.seqs[id].table == [] && SavedOk(kv.seqs[id], v, kv.size)
      requires |v.pages| <= |FreePages(kv)|
      modifies this`kv
      ensures Good(kv) && OthersKept(old(kv), kv, id) && |kv.seqs[id].table| == |v.pages|
      ensures kv.seqs[id].computed == v.computed && kv.seqs[id].published == v.published
    {
      hide Inv, Shape;
      SwapInStart(kv, id, v);
      var k := 0;
      while k < |v.pages|
        invariant k <= |v.pages| && SwappingIn(old(kv), kv, id, v, k)
      {
        SwapInPage(id, v, k, old(kv));
        k := k + 1;
      }
      SwapInDone(old(kv), kv, id, v);
    }

    method SwapInPage(id: nat, v: Saved, k: nat, ghost s0: State)
      requires k < |v.pages| && SwappingIn(s0, kv, id, v, k)
      modifies this`kv
      ensures SwappingIn(s0, kv, id, v, k + 1)
    {
      hide Inv;
      var b :| b in FreePages(kv);
      ReloadOk(s0, kv, id, v, k, b);
      kv := Reload(kv, id, v, k, b);
      RepublishOk(s0, kv, id, v, k);
      if k < v.published {
        kv := PublishNext(kv, id);
      }
    }

    // ----- the life of a request

    /** A request arrives with its prompt. */
    method Arrive(id: nat, prompt: Key, spans: seq<(nat, nat)>)
      requires Valid() && id !in kv.seqs && prompt != [] && SpansOk(spans, |prompt|)
      modifies this`kv
      ensures Valid() && kv.seqs.Keys == old(kv).seqs.Keys + {id}
      ensures kv.entries == old(kv).entries && kv.blocks == old(kv).blocks && kv.size == old(kv).size
      ensures kv.seqs[id] == Sequence(prompt, |prompt|, spans, BoundaryOf(spans, |prompt|), 0, 0, 0, 0, [])
      ensures forall j :: j in old(kv).seqs ==> kv.seqs[j] == old(kv).seqs[j]
    {
      hide Inv, SpansOk;
      var boundary := BoundaryOf(spans, |prompt|);
      AddSeqKeepsInv(kv, id, prompt, spans, boundary);
      kv := AddSeq(kv, id, prompt, spans, boundary);
    }

    /** A request is finished or cancelled, and all it holds is given up. */
    method Leave(id: nat)
      requires Valid() && id in kv.seqs
      modifies this
      ensures Valid() && kv.seqs.Keys == old(kv).seqs.Keys - {id} && kv.entries == old(kv).entries
      ensures kv.size == old(kv).size
      ensures cpu == old(cpu) - {id}
      ensures forall j :: j in kv.seqs ==> kv.seqs[j] == old(kv).seqs[j]
    {
      hide Inv, Shape, Slots, Released, SavedOk;
      if id in cpu {
        ParkedWithout(kv, cpu, id);
        LeavingFreesSlots(cpu, id);
        cpu := cpu - {id};
      }
      Release(id);
      RemoveSeqKeepsInv(kv, id);
      assert cpu == old(cpu) - {id};
      kv := RemoveSeq(kv, id);
    }

    /** The sampled token joins the history. */
    method AppendSampled(id: nat, token: Token)
      requires Valid() && id in kv.seqs && id !in cpu
      modifies this`kv
      ensures Valid() && kv == AppendToken(old(kv), id, token)
    {
      hide Inv, SpansOk;
      AppendTokenKeepsInv(kv, id, token);
      kv := AppendToken(kv, id, token);
    }

    /** The rows of a decode step whose request has all others: the newest is computed, and a page that it
        completes is published. */
    method ComputeNewest(id: nat)
      requires Valid() && id in kv.seqs && id !in cpu && kv.seqs[id].computed + 1 == |kv.seqs[id].tokens|
      requires |kv.seqs[id].table| == PagesFor(|kv.seqs[id].tokens|, kv.size) && Caught(kv.seqs[id], kv.size)
      modifies this`kv
      ensures Valid() && OthersKept(old(kv), kv, id) && Caught(kv.seqs[id], kv.size)
      ensures kv.seqs[id].computed == |kv.seqs[id].tokens| && kv.seqs[id].table == old(kv).seqs[id].table
    {
      hide Inv, Shape;
      var n := |kv.seqs[id].tokens|;
      PagesCover(n, kv.size);
      CaughtUp(kv.seqs[id], kv.size);
      ComputeRows(id, n);
      PublishComputed(id, n - 1, n);
      CaughtUp(kv.seqs[id], kv.size);
      ParkedKept(old(kv), kv, id, cpu);
    }

    /** The rows of a decode step whose request misses some: the newest row is written behind the gap.  A page
        that is complete by its length is published, although rows of it or before it are missing. */
    method WriteNewest(id: nat)
      requires Valid() && id in kv.seqs && id !in cpu && kv.seqs[id].computed + 1 < |kv.seqs[id].tokens|
      requires |kv.seqs[id].table| == PagesFor(|kv.seqs[id].tokens|, kv.size) && Caught(kv.seqs[id], kv.size)
      modifies this`kv
      ensures OthersKept(old(kv), kv, id) && kv.seqs == old(kv).seqs
      ensures !CompletesPage(kv.seqs[id], kv.size) ==> Valid()
      ensures CompletesPage(kv.seqs[id], kv.size) ==> PublishedUnread(kv, id)
    {
      hide Inv, Shape, PageOk;
      var k := |kv.seqs[id].table| - 1;
      var r := |kv.seqs[id].tokens| - 1 - Start(k, kv.size);
      NewestIsAhead(kv, id, k, r);
      var row: Key := *;
      WriteAheadKeepsInv(kv, id, k, r, row);
      StaysGood(kv, WriteAhead(kv, id, k, r, row), id);
      kv := WriteAhead(kv, id, k, r, row);
      ParkedKept(old(kv), kv, id, cpu);
      if CompletesPage(kv.seqs[id], kv.size) {
        LastPageEnds(kv, id, k);
        kv := PublishChained(kv, id, k);
      }
    }

    /** The step of a request with too few pages, after its plan: its row goes to the last page, and a page that
        its length completes is looked up behind the end of the page table. */
    method WriteShort(id: nat, token: Token) returns (o: Decoded, harm: Harm)
      requires Valid() && kv.size > 1 && id in kv.seqs && id !in cpu && Trails(kv.seqs[id], kv.size) && OwnTail(kv, id)
      modifies this`kv
      ensures kv.size == old(kv).size && kv.seqs.Keys == old(kv).seqs.Keys
      ensures o == PublishRaises <==> CompletesPage(old(kv).seqs[id], kv.size)
      ensures o != PlanRaises && harm == if HasOpenTail(old(kv).seqs[id]) then NoHarm else Stray
      ensures forall j :: j in kv.seqs && j != id ==> kv.seqs[j] == old(kv).seqs[j]
      ensures var q0, q := old(kv).seqs[id], kv.seqs[id];
              && q == q0.(tokens := q.tokens, computed := q.computed)
              && q.tokens == (if o == Appended then q0.tokens + [token] else q0.tokens)
              && (harm == NoHarm ==> q.computed == Min(q0.computed, SlotPosition(q0, kv.size)))
      ensures if harm == NoHarm then Valid() && Trails(kv.seqs[id], kv.size) else HashLies(kv, id)
    {
      hide Inv, Shape, Whole, Parked, Slots, OwnTail;
      harm := if HasOpenTail(kv.seqs[id]) then NoHarm else Stray;
      WriteToSlot(id);
      o := if CompletesPage(kv.seqs[id], kv.size) then PublishRaises else Appended;
      if o == Appended && harm == NoHarm {
        AppendSampled(id, token);
      } else if o == Appended {
        kv := AppendToken(kv, id, token);
      }
    }

    /** The model writes the newest row, a row of its length, to the slot. */
    method WriteToSlot(id: nat)
      requires Valid() && id in kv.seqs && id !in cpu && Trails(kv.seqs[id], kv.size) && OwnTail(kv, id)
      modifies this`kv
      ensures OthersKept(old(kv), kv, id)
      ensures if HasOpenTail(old(kv).seqs[id]) then Valid() && Trails(kv.seqs[id], kv.size) else HashLies(kv, id)
      ensures HasOpenTail(old(kv).seqs[id]) ==>
                var q0 := old(kv).seqs[id];
                kv.seqs[id] == q0.(computed := Min(q0.computed, SlotPosition(q0, kv.size)))
      ensures !HasOpenTail(old(kv).seqs[id]) ==> kv.seqs == old(kv).seqs
    {
      hide Inv, Shape, Whole, Parked, Slots, OwnTail, SlotPosition;
      var row: Key :| |row| == |kv.seqs[id].tokens|;
      SlotKeepsInvIff(kv, id, row);
      if HasOpenTail(kv.seqs[id]) { SlotTrails(kv, id, row); }
      kv := WriteSlot(kv, id, row);
      if HasOpenTail(old(kv).seqs[id]) { ParkedKept(old(kv), kv, id, cpu); }
    }

    /** The step of a request with pages for all its tokens, after its plan.  One that has all rows but the newest
        gets that row.  One that misses rows never gets them; as soon as its step completes a page, that page is
        published all the same. */
    method WriteWhole(id: nat, token: Token) returns (harm: Harm)
      requires Valid() && kv.size > 1 && id in kv.seqs && id !in cpu && kv.seqs[id].computed < |kv.seqs[id].tokens|
      requires |kv.seqs[id].table| == PagesFor(|kv.seqs[id].tokens|, kv.size) && Caught(kv.seqs[id], kv.size)
      modifies this`kv
      ensures kv.size == old(kv).size && kv.seqs.Keys == old(kv).seqs.Keys
      ensures forall j :: j in kv.seqs && j != id ==> kv.seqs[j] == old(kv).seqs[j]
      ensures var q0, q := old(kv).seqs[id], kv.seqs[id];
              && q.tokens == q0.tokens + [token] && q.prompt == q0.prompt && q.table == q0.table
              && q.computed == q0.computed + (if q0.computed + 1 == |q0.tokens| then 1 else 0)
              && (harm == Gap <==> q0.computed + 1 < |q0.tokens| && CompletesPage(q0, kv.size))
      ensures harm != Stray
      ensures if harm == NoHarm then Valid() && Caught(kv.seqs[id], kv.size) else PublishedUnread(kv, id)
    {
      hide Inv, Shape, Whole, Parked, Slots;
      harm := NoHarm;
      if kv.seqs[id].computed + 1 == |kv.seqs[id].tokens| {
        ComputeNewest(id);
        AppendSampled(id, token);
      } else {
        WriteNewest(id);
        if CompletesPage(kv.seqs[id], kv.size) {
          harm := Gap;
          kv := AppendToken(kv, id, token);
        } else {
          AppendSampled(id, token);
        }
      }
    }

    /** A decode step of a request with too few pages. */
    method DecodeShort(id: nat, token: Token) returns (o: Decoded, harm: Harm)
      requires Valid() && kv.size > 1 && id in kv.seqs && id !in cpu
      requires Resumes(kv.seqs[id], kv.size) && Short(kv.seqs[id], kv.size)
      modifies this`kv
      ensures kv.size == old(kv).size && kv.seqs.Keys == old(kv).seqs.Keys
      ensures forall j :: j in kv.seqs && j != id ==> kv.seqs[j] == old(kv).seqs[j]
      ensures o == PlanRaises <==> !CanPlan(old(kv), id)
      ensures o == PublishRaises <==> CanPlan(old(kv), id) && CompletesPage(old(kv).seqs[id], kv.size)
      ensures harm != Gap && (harm == Stray ==> CanPlan(old(kv), id) && StrayPossible(old(kv), id))
      ensures CanPlan(old(kv), id) && StrayCertain(old(kv), id) ==> harm == Stray
      ensures kv.seqs[id].tokens == old(kv).seqs[id].tokens + (if o == Appended then [token] else [])
      ensures if harm == NoHarm then Valid() else HashLies(kv, id)
      ensures harm == NoHarm ==>
                var q := kv.seqs[id];
                Resumes(q, kv.size) && Short(q, kv.size) && q.computed <= old(kv).seqs[id].computed
      ensures MissesRows(old(kv).seqs[id]) && (harm == NoHarm ==> MissesRows(kv.seqs[id]))
    {
      hide Inv, Shape, Whole, Parked, Slots, OwnTail, CanPlan, SlotPosition, StrayPossible, StrayCertain, HashLies,
        OthersHoldTail, FreePages, Trails;
      SeqFits(kv, id);
      ShortStays(kv.seqs[id], kv.size);
      ResumesTrails(kv.seqs[id], kv.size);
      var ok := PlanDecode(id);
      ParkedKept(old(kv), kv, id, cpu);
      if !ok { return PlanRaises, NoHarm; }
      PlannedPages(old(kv), kv, id);
      StrayAfterPlan(old(kv), kv, id);
      o, harm := WriteShort(id, token);
      if harm == NoHarm { ShortGoesOn(old(kv).seqs[id], kv.seqs[id], kv.size); }
    }

    /** A decode step of a request with enough pages. */
    method DecodeWhole(id: nat, token: Token) returns (o: Decoded, harm: Harm)
      requires Valid() && kv.size > 1 && id in kv.seqs && id !in cpu
      requires Resumes(kv.seqs[id], kv.size) && !Short(kv.seqs[id], kv.size)
      modifies this`kv
      ensures kv.size == old(kv).size && kv.seqs.Keys == old(kv).seqs.Keys
      ensures forall j :: j in kv.seqs && j != id ==> kv.seqs[j] == old(kv).seqs[j]
      ensures o == if CanPlan(old(kv), id) then Appended else PlanRaises
      ensures harm == Gap <==> o == Appended && MissesRows(old(kv).seqs[id]) && CompletesPage(old(kv).seqs[id], kv.size)
      ensures kv.seqs[id].tokens == old(kv).seqs[id].tokens + (if o == Appended then [token] else [])
      ensures harm != Stray && if harm == NoHarm then Valid() else PublishedUnread(kv, id)
      ensures harm == NoHarm ==> Resumes(kv.seqs[id], kv.size) && !Short(kv.seqs[id], kv.size)
      ensures var q0, q := old(kv).seqs[id], kv.seqs[id];
              && (MissesRows(q) <==> MissesRows(q0))
              && q.computed == q0.computed + (if o == Appended && !MissesRows(q0) then 1 else 0)
    {
      hide Inv, Shape, Whole, Parked, Slots, OwnTail, CanPlan, SlotPosition;
      var ok := PlanDecode(id);
      ParkedKept(old(kv), kv, id, cpu);
      if !ok { return PlanRaises, NoHarm; }
      PlannedPages(old(kv), kv, id);
      o := Appended;
      harm := WriteWhole(id, token);
      if harm == NoHarm { WholeGoesOn(old(kv).seqs[id], kv.seqs[id], kv.size); }
    }

    /** A whole decode step.  The plan fails exactly if a last page for the row cannot be had.  With too few pages,
        publishing fails exactly if the step completes a page, and the row strays into a published page exactly if
        the last page is still published after the plan: always if it was the request's own and no page is due,
        never if a page was free for a copy or another request holds it.  Without an exception the token joins
        the history, and without harm the cache stays in order. */
    method DecodeStep(id: nat, token: Token) returns (o: Decoded, harm: Harm)
      requires Valid() && kv.size > 1 && id in kv.seqs && id !in cpu && Resumes(kv.seqs[id], kv.size)
      modifies this`kv
      ensures kv.size == old(kv).size && kv.seqs.Keys == old(kv).seqs.Keys
      ensures forall j :: j in kv.seqs && j != id ==> kv.seqs[j] == old(kv).seqs[j]
      ensures var s, q := old(kv), old(kv).seqs[id];
              && (o == PlanRaises <==> !CanPlan(s, id))
              && (o == PublishRaises <==> CanPlan(s, id) && Short(q, s.size) && CompletesPage(q, s.size))
      ensures var s, q := old(kv), old(kv).seqs[id];
              && (harm == Gap <==> CanPlan(s, id) && !Short(q, s.size) && MissesRows(q) && CompletesPage(q, s.size))
              && (harm == Stray ==> CanPlan(s, id) && StrayPossible(s, id))
              && (CanPlan(s, id) && StrayCertain(s, id) ==> harm == Stray)
      ensures kv.seqs[id].tokens == old(kv).seqs[id].tokens + (if o == Appended then [token] else [])
      ensures harm == NoHarm ==> Valid() && Resumes(kv.seqs[id], kv.size)
      ensures harm == Gap ==> PublishedUnread(kv, id)
      ensures harm == Stray ==> HashLies(kv, id)
      ensures o == Appended && harm == NoHarm ==>
                && (Short(kv.seqs[id], kv.size) <==> Short(old(kv).seqs[id], kv.size))
                && (MissesRows(kv.seqs[id]) <==> MissesRows(old(kv).seqs[id]))
                && (MissesRows(kv.seqs[id]) ==> kv.seqs[id].computed <= old(kv).seqs[id].computed)
    {
      hide Inv, Shape, Whole, Parked, Slots, OwnTail, CanPlan, Resumes, MissesRows, Short;
      ResumesTrails(kv.seqs[id], kv.size);
      if Short(kv.seqs[id], kv.size) {
        o, harm := DecodeShort(id, token);
      } else {
        o, harm := DecodeWhole(id, token);
      }
    }
  }
}
