/** Further page-level steps of one request: publishing a finished page, filling a page from a copy,
    and making shared pages private before they are written again. */
module KvPublishSteps {
  import opened Paging
  import opened KvState
  import opened KvSteps

  // ----- publishing

  /** The first unpublished page is complete: give it the hash of its history. */
  function PublishNext(s: State, id: nat): State
    requires id in s.seqs && s.seqs[id].published < |s.seqs[id].table|
    requires s.seqs[id].table[s.seqs[id].published] < |s.blocks|
    requires Start(s.seqs[id].published + 1, s.size) <= |s.seqs[id].tokens|
  {
    var q := s.seqs[id];
    var b := q.table[q.published];
    var key := q.tokens[..Start(q.published + 1, s.size)];
    var t := WithBlock(s, b, s.blocks[b].(hash := key)).(index := Unindexed(s, b)[key := b]);
    WithSeq(t, id, q.(published := q.published + 1))
  }

  ghost predicate Publishable(s: State, id: nat)
    requires id in s.seqs
  {
    var q := s.seqs[id];
    Settled(s, id) && q.published < |q.table| && Start(q.published + 1, s.size) <= q.computed
  }

  lemma PublishIndexOk(s: State, id: nat)
    requires Inv(s) && id in s.seqs && Publishable(s, id)
    ensures var q := s.seqs[id]; q.table[q.published] < |s.blocks| && q.computed <= |q.tokens|
    ensures IndexOk(PublishNext(s, id))
  {
    var q := s.seqs[id];
    assert SeqOk(s, id);
    OwnedPage(s, id, q.published);
    var b := q.table[q.published];
    assert s.blocks[b].hash == [] && Start(q.published + 1, s.size) > 0;
  }

  lemma PublishPageStep(s: State, id: nat)
    requires Inv(s) && id in s.seqs && Publishable(s, id)
    ensures var q := s.seqs[id]; q.table[q.published] < |s.blocks| && q.computed <= |q.tokens|
    ensures PageStep(s, PublishNext(s, id), id, s.seqs[id].table[s.seqs[id].published])
  {
    var q := s.seqs[id];
    assert SeqOk(s, id);
    OwnedPage(s, id, q.published);
    var b := q.table[q.published];
    var t := PublishNext(s, id);
    forall o | o in s.blocks[b].owners && !(o.OfSeq? && o.id == id) ensures ClaimOk(s, t.blocks[b], o) {
      ClaimOfOwner(s, b, o);
      assert NeedsOnly(o, s.entries, q.computed - Start(q.published, s.size), OwnKey(q));
    }
    forall o | o in t.blocks[b].owners ensures Held(t, b, o) {
      assert Held(s, b, o);
    }
    forall r | 0 <= r < s.size ensures t.blocks[b].rows[r] == t.blocks[b].hash[..|t.blocks[b].hash| - s.size + r + 1] {
      assert s.blocks[b].rows[r] == q.tokens[..Start(q.published, s.size) + r + 1];
    }
  }

  lemma PublishSeqOk(s: State, id: nat)
    requires Inv(s) && id in s.seqs && Publishable(s, id)
    ensures var q := s.seqs[id]; q.table[q.published] < |s.blocks| && q.computed <= |q.tokens|
    ensures SeqOk(PublishNext(s, id), id)
  {
    var q := s.seqs[id];
    assert SeqOk(s, id);
    OwnedPage(s, id, q.published);
    var t := PublishNext(s, id);
    forall k | 0 <= k < |q.table| ensures PageOk(t.blocks[q.table[k]], k, id, t.seqs[id], t.entries, t.size) {
      assert PageOk(s.blocks[q.table[k]], k, id, q, s.entries, s.size);
      assert k != q.published ==> q.table[k] != q.table[q.published];
    }
  }

  lemma PublishKeepsInv(s: State, id: nat)
    requires Inv(s) && id in s.seqs && Publishable(s, id)
    ensures var q := s.seqs[id]; q.table[q.published] < |s.blocks| && q.computed <= |q.tokens|
    ensures Inv(PublishNext(s, id))
  {
    PublishIndexOk(s, id);
    PublishPageStep(s, id);
    PublishSeqOk(s, id);
    SeqStepKeepsInv(s, PublishNext(s, id), id, {s.seqs[id].table[s.seqs[id].published]});
  }

  /** What the source does to a completed page: the hash of the page before it is continued, or a new
      chain begins if that page has none. */
  function PublishChained(s: State, id: nat, k: nat): State
    requires id in s.seqs && k < |s.seqs[id].table| && Start(k + 1, s.size) <= |s.seqs[id].tokens|
    requires forall i :: 0 <= i <= k ==> s.seqs[id].table[i] < |s.blocks|
  {
    var q := s.seqs[id];
    var b := q.table[k];
    var before := if k == 0 then [] else s.blocks[q.table[k - 1]].hash;
    var key := before + q.tokens[Start(k, s.size)..Start(k + 1, s.size)];
    WithBlock(s, b, s.blocks[b].(hash := key)).(index := Unindexed(s, b)[key := b])
  }

  lemma ChainContinues(s: State, id: nat, k: nat)
    requires Inv(s) && id in s.seqs && k <= s.seqs[id].published && k < |s.seqs[id].table|
    requires Start(k + 1, s.size) <= |s.seqs[id].tokens|
    ensures forall i :: 0 <= i <= k ==> s.seqs[id].table[i] < |s.blocks|
    ensures var q := s.seqs[id];
            (if k == 0 then [] else s.blocks[q.table[k - 1]].hash) + q.tokens[Start(k, s.size)..Start(k + 1, s.size)]
            == q.tokens[..Start(k + 1, s.size)]
  {
    SeqIsOk(s, id);
    hide Inv;
    if k > 0 { OwnedPage(s, id, k - 1); }
  }

  /** On a page whose rows are all computed this is the hash of its history. */
  lemma ChainedIsNext(s: State, id: nat)
    requires Inv(s) && id in s.seqs && Publishable(s, id)
    ensures var q := s.seqs[id]; Start(q.published + 1, s.size) <= |q.tokens| && q.table[q.published] < |s.blocks|
    ensures forall i :: 0 <= i <= s.seqs[id].published ==> s.seqs[id].table[i] < |s.blocks|
    ensures PublishNext(s, id) ==
            WithSeq(PublishChained(s, id, s.seqs[id].published), id, PublishNext(s, id).seqs[id])
  {
    hide Inv, PageOk;
    SeqIsOk(s, id);
    ChainContinues(s, id, s.seqs[id].published);
  }

  /** The same state but for rows of page k of a request that it has not computed. */
  ghost predicate SameComputed(s: State, u: State, id: nat, k: nat)
    requires id in s.seqs && k < |s.seqs[id].table| && s.seqs[id].table[k] < |s.blocks|
  {
    var b := s.seqs[id].table[k];
    && |u.blocks| == |s.blocks| && u == WithBlock(s, b, s.blocks[b].(rows := u.blocks[b].rows))
    && |u.blocks[b].rows| == |s.blocks[b].rows|
    && forall r :: 0 <= r < |s.blocks[b].rows| && Start(k, s.size) + r < s.seqs[id].computed ==>
         u.blocks[b].rows[r] == s.blocks[b].rows[r]
  }

  /** The hash of the published page tells what it holds, whatever is in the rows that were not computed. */
  ghost predicate PublishingIsSound(s: State, id: nat, k: nat)
    requires id in s.seqs && k < |s.seqs[id].table| && Start(k + 1, s.size) <= |s.seqs[id].tokens|
    requires forall i :: 0 <= i <= k ==> s.seqs[id].table[i] < |s.blocks|
  {
    forall u :: SameComputed(s, u, id, k) && Inv(u) ==>
      BlockOk(PublishChained(u, id, k).blocks[s.seqs[id].table[k]], s.size)
  }

  lemma ComputedPageIsSound(s: State, u: State, id: nat, k: nat)
    requires Inv(s) && id in s.seqs && Publishable(s, id) && k == s.seqs[id].published
    requires s.seqs[id].table[k] < |s.blocks| && SameComputed(s, u, id, k) && Inv(u)
    ensures Start(k + 1, s.size) <= |s.seqs[id].tokens|
    ensures forall i :: 0 <= i <= k ==> s.seqs[id].table[i] < |s.blocks|
    ensures BlockOk(PublishChained(u, id, k).blocks[s.seqs[id].table[k]], s.size)
  {
    hide Inv, PageOk;
    ChainedIsNext(u, id);
    PublishKeepsInv(u, id);
    OwnedPage(PublishNext(u, id), id, k);
  }

  /** The row of the last position of the page may hold anything. */
  lemma MissingRowIsUnsound(s: State, id: nat, k: nat)
    requires Inv(s) && id in s.seqs && s.size > 0 && RowAhead(s, id, k, s.size - 1)
    requires Start(k + 1, s.size) <= |s.seqs[id].tokens|
    ensures forall i :: 0 <= i <= k ==> s.seqs[id].table[i] < |s.blocks|
    ensures s.size <= |s.blocks[s.seqs[id].table[k]].rows|
    ensures var u := WriteAhead(s, id, k, s.size - 1, []);
            && SameComputed(s, u, id, k) && Inv(u)
            && !BlockOk(PublishChained(u, id, k).blocks[s.seqs[id].table[k]], s.size)
  {
    hide Inv, PageOk, SeqOk;
    SeqIsOk(s, id);
    OwnedPage(s, id, k);
    WriteAheadKeepsInv(s, id, k, s.size - 1, []);
    var u := WriteAhead(s, id, k, s.size - 1, []);
    var page := PublishChained(u, id, k).blocks[s.seqs[id].table[k]];
    assert page.rows[s.size - 1] == [] && |page.hash| >= s.size;
    assert page.hash[..|page.hash| - s.size + (s.size - 1) + 1] == page.hash;
  }

  /** Publishing a page is sound exactly if all its rows are computed. */
  lemma PublishingIsSoundIff(s: State, id: nat, k: nat)
    requires Inv(s) && id in s.seqs && Settled(s, id) && s.seqs[id].published <= k < |s.seqs[id].table|
    requires Start(k + 1, s.size) <= |s.seqs[id].tokens|
    requires s.seqs[id].published == k || s.seqs[id].computed < Start(k + 1, s.size)
    ensures forall i :: 0 <= i <= k ==> s.seqs[id].table[i] < |s.blocks|
    ensures PublishingIsSound(s, id, k) <==> Start(k + 1, s.size) <= s.seqs[id].computed
  {
    SeqIsOk(s, id);
    assert s.size > 0;
    hide Inv, BlockOk, SameComputed, PublishChained;
    if Start(k + 1, s.size) <= s.seqs[id].computed {
      forall u | SameComputed(s, u, id, k) && Inv(u)
        ensures BlockOk(PublishChained(u, id, k).blocks[s.seqs[id].table[k]], s.size)
      {
        ComputedPageIsSound(s, u, id, k);
      }
    } else {
      MissingRowIsUnsound(s, id, k);
    }
  }

  // ----- filling the last page from a copy

  /** The last page of a request, which is its own, receives the rows of a copy; with them the
      history is computed up to `upTo`. */
  function LoadPage(s: State, id: nat, rows: seq<Key>, upTo: nat): State
    requires id in s.seqs && s.seqs[id].table != [] && s.seqs[id].table[|s.seqs[id].table| - 1] < |s.blocks|
  {
    var q := s.seqs[id];
    var b := q.table[|q.table| - 1];
    WithSeq(WithBlock(s, b, s.blocks[b].(rows := rows)), id, q.(computed := upTo))
  }

  ghost predicate Loadable(s: State, id: nat, rows: seq<Key>, upTo: nat)
    requires id in s.seqs
  {
    var q := s.seqs[id];
    var k := |q.table| - 1;
    && q.table != [] && Settled(s, id) && q.published <= k
    && q.table[k] < |s.blocks| && s.blocks[q.table[k]].owners == {OfSeq(id, k)}
    && q.computed == Start(k, s.size) <= upTo <= Start(k + 1, s.size) && upTo <= |q.tokens|
    && |rows| == s.size
    && forall r :: 0 <= r < s.size && Start(k, s.size) + r < upTo ==> rows[r] == q.tokens[..Start(k, s.size) + r + 1]
  }

  lemma LoadPageOthers(s: State, id: nat, rows: seq<Key>, upTo: nat)
    requires Inv(s) && id in s.seqs && Loadable(s, id, rows, upTo)
    ensures forall k :: 0 <= k < |s.seqs[id].table| - 1 ==>
            s.seqs[id].table[k] != s.seqs[id].table[|s.seqs[id].table| - 1]
    ensures PageStep(s, LoadPage(s, id, rows, upTo), id, s.seqs[id].table[|s.seqs[id].table| - 1])
  {
    var q := s.seqs[id];
    OwnedPage(s, id, |q.table| - 1);
    forall k | 0 <= k < |q.table| - 1 ensures q.table[k] != q.table[|q.table| - 1] {
      OwnedPage(s, id, k);
    }
  }

  lemma LoadedPageOk(s: State, id: nat, rows: seq<Key>, upTo: nat, last: nat)
    requires id in s.seqs && SeqOk(s, id) && Loadable(s, id, rows, upTo) && last == |s.seqs[id].table| - 1
    ensures PageOk(LoadPage(s, id, rows, upTo).blocks[s.seqs[id].table[last]], last, id,
            LoadPage(s, id, rows, upTo).seqs[id], s.entries, s.size)
  {
    assert PageOk(s.blocks[s.seqs[id].table[last]], last, id, s.seqs[id], s.entries, s.size);
  }

  /** Computing more rows does not touch a page that was computed entirely. */
  lemma FullPageKept(b: Block, k: nat, id: nat, q: Sequence, upTo: nat, entries: map<Key, Entry>, size: nat)
    requires PageOk(b, k, id, q, entries, size) && Start(k + 1, size) <= q.computed <= upTo <= |q.tokens|
    ensures PageOk(b, k, id, q.(computed := upTo), entries, size)
  {
  }

  lemma LoadPageSeqOk(s: State, id: nat, rows: seq<Key>, upTo: nat)
    requires id in s.seqs && SeqOk(s, id) && Loadable(s, id, rows, upTo)
    requires forall k :: 0 <= k < |s.seqs[id].table| - 1 ==>
             s.seqs[id].table[k] != s.seqs[id].table[|s.seqs[id].table| - 1]
    ensures SeqOk(LoadPage(s, id, rows, upTo), id)
  {
    var q := s.seqs[id];
    var last := |q.table| - 1;
    var t := LoadPage(s, id, rows, upTo);
    LoadedPageOk(s, id, rows, upTo, last);
    forall k | 0 <= k < last ensures PageOk(t.blocks[q.table[k]], k, id, t.seqs[id], t.entries, t.size) {
      StartMonotone(k + 1, last, s.size);
      FullPageKept(s.blocks[q.table[k]], k, id, q, upTo, s.entries, s.size);
    }
  }

  lemma LoadPageOnly(s: State, id: nat, rows: seq<Key>, upTo: nat)
    requires BlocksOk(s) && id in s.seqs && Loadable(s, id, rows, upTo)
    ensures OnlyBy(s, LoadPage(s, id, rows, upTo), id, {s.seqs[id].table[|s.seqs[id].table| - 1]})
    ensures TableStep(s, LoadPage(s, id, rows, upTo), id, {s.seqs[id].table[|s.seqs[id].table| - 1]})
    ensures IndexOk(LoadPage(s, id, rows, upTo))
  {
  }

  lemma LoadPageKeepsInv(s: State, id: nat, rows: seq<Key>, upTo: nat)
    requires Inv(s) && id in s.seqs && Loadable(s, id, rows, upTo)
    ensures Inv(LoadPage(s, id, rows, upTo))
  {
    LoadPageOthers(s, id, rows, upTo);
    SeqIsOk(s, id);
    LoadPageSeqOk(s, id, rows, upTo);
    LoadPageOnly(s, id, rows, upTo);
    SeqStepKeepsInv(s, LoadPage(s, id, rows, upTo), id, {s.seqs[id].table[|s.seqs[id].table| - 1]});
  }

  // ----- making pages private

  /** Page k of a request is replaced by the unreferenced page b, into which its first n rows are
      copied: copy on write, and the private copy of a page that must be computed again. */
  function ReplacePage(s: State, id: nat, k: nat, b: nat, n: nat): State
    requires id in s.seqs && k < |s.seqs[id].table| && s.seqs[id].table[k] < |s.blocks| && b < |s.blocks|
    requires s.blocks[s.seqs[id].table[k]].refs > 0
    requires n <= |s.blocks[s.seqs[id].table[k]].rows| == |s.blocks[b].rows|
  {
    var q := s.seqs[id];
    var source := s.blocks[q.table[k]];
    var copied := Block(1, [], {OfSeq(id, k)}, source.rows[..n] + s.blocks[b].rows[n..]);
    var t := WithBlock(WithBlock(s, q.table[k], Release(source, OfSeq(id, k))), b, copied).(index := Unindexed(s, b));
    WithSeq(t, id, q.(table := q.table[k := b], dirty := if q.dirty == k < q.dirtyEnd then k + 1 else q.dirty))
  }

  /** Page k is not published, its computed rows are among the n copied ones, and page b is free. */
  ghost predicate Replaceable(s: State, id: nat, k: nat, b: nat, n: nat)
    requires id in s.seqs
  {
    var q := s.seqs[id];
    && k < |q.table| && q.published <= k && (Settled(s, id) || q.dirty == k)
    && q.computed <= Start(k, s.size) + n && n <= s.size
    && b < |s.blocks| && s.blocks[b].refs == 0
  }

  lemma ReplacePageSteps(s: State, id: nat, k: nat, b: nat, n: nat)
    requires Inv(s) && id in s.seqs && Replaceable(s, id, k, b, n)
    ensures var a := s.seqs[id].table[k];
            && a < |s.blocks| && s.blocks[a].refs > 0 && |s.blocks[a].rows| == |s.blocks[b].rows| == s.size
            && a != b && b !in s.seqs[id].table && s.blocks[b].owners == {}
    ensures PageStep(s, ReplacePage(s, id, k, b, n), id, s.seqs[id].table[k])
    ensures PageStep(s, ReplacePage(s, id, k, b, n), id, b)
  {
    OwnedPage(s, id, k);
    assert BlockOk(s.blocks[b], s.size);
    FreshPageIsOwn(s, id, b);
    ReleasePageStep(s, ReplacePage(s, id, k, b, n), id, k);
  }

  lemma ReplacePageSeqOk(s: State, id: nat, k: nat, b: nat, n: nat)
    requires id in s.seqs && SeqOk(s, id) && Replaceable(s, id, k, b, n) && b !in s.seqs[id].table
    requires s.seqs[id].table[k] < |s.blocks| && s.blocks[s.seqs[id].table[k]].refs > 0
    requires |s.blocks[s.seqs[id].table[k]].rows| == |s.blocks[b].rows| == s.size
    ensures SeqOk(ReplacePage(s, id, k, b, n), id)
  {
    var q := s.seqs[id];
    var t := ReplacePage(s, id, k, b, n);
    assert PageOk(s.blocks[q.table[k]], k, id, q, s.entries, s.size);
    assert PageOk(t.blocks[b], k, id, t.seqs[id], t.entries, t.size);
    forall i | 0 <= i < |q.table| && i != k ensures PageOk(t.blocks[q.table[i]], i, id, t.seqs[id], t.entries, t.size) {
      assert PageOk(s.blocks[q.table[i]], i, id, q, s.entries, s.size);
    }
  }

  lemma ReplacePageOnly(s: State, id: nat, k: nat, b: nat, n: nat)
    requires BlocksOk(s) && id in s.seqs && Replaceable(s, id, k, b, n)
    requires s.seqs[id].table[k] < |s.blocks| && s.blocks[s.seqs[id].table[k]].refs > 0
    requires |s.blocks[s.seqs[id].table[k]].rows| == |s.blocks[b].rows| == s.size
    ensures OnlyBy(s, ReplacePage(s, id, k, b, n), id, {s.seqs[id].table[k], b})
    ensures TableStep(s, ReplacePage(s, id, k, b, n), id, {s.seqs[id].table[k], b})
    ensures IndexOk(ReplacePage(s, id, k, b, n))
  {
    UnindexedOk(s, ReplacePage(s, id, k, b, n), b);
  }

  lemma ReplacePageKeepsInv(s: State, id: nat, k: nat, b: nat, n: nat)
    requires Inv(s) && id in s.seqs && Replaceable(s, id, k, b, n)
    ensures var a := s.seqs[id].table[k];
            a < |s.blocks| && s.blocks[a].refs > 0 && |s.blocks[a].rows| == |s.blocks[b].rows| == s.size
    ensures Inv(ReplacePage(s, id, k, b, n))
  {
    ReplacePageSteps(s, id, k, b, n);
    assert SeqOk(s, id);
    ReplacePageSeqOk(s, id, k, b, n);
    ReplacePageOnly(s, id, k, b, n);
    SeqStepKeepsInv(s, ReplacePage(s, id, k, b, n), id, {s.seqs[id].table[k], b});
  }

  /** A prefix hit ends inside an image: the pages from `firstPage` on will be computed again and
      wait to be made private. */
  function Snap(s: State, id: nat, firstPage: nat, computed: nat): State
    requires id in s.seqs
  {
    var q := s.seqs[id];
    WithSeq(s, id, q.(computed := computed, published := firstPage, dirty := firstPage, dirtyEnd := q.published))
  }

  ghost predicate Snappable(s: State, id: nat, firstPage: nat, computed: nat)
    requires id in s.seqs
  {
    var q := s.seqs[id];
    && Settled(s, id) && q.computed == Start(q.published, s.size) && firstPage < q.published
    && Start(firstPage, s.size) <= computed <= q.computed
  }

  /** With no rows computed in it, an unpublished page belongs to its request alone. */
  lemma NoTailsAbove(s: State, id: nat, k: nat, b: nat)
    requires Inv(s) && id in s.seqs && b < |s.blocks|
    requires Private(s.blocks[b], k, id, s.entries, s.seqs[id].computed - Start(k, s.size), OwnKey(s.seqs[id]))
    requires s.seqs[id].computed <= Start(k, s.size)
    ensures forall o :: o in s.blocks[b].owners ==> o == OfSeq(id, k)
  {
    forall o | o in s.blocks[b].owners ensures o == OfSeq(id, k) {
      assert Held(s, b, o);
      assert !o.OfSeq? ==> EntryOk(s, o.key);
    }
  }

  lemma SnapKeepsInv(s: State, id: nat, firstPage: nat, computed: nat)
    requires Inv(s) && id in s.seqs && Snappable(s, id, firstPage, computed)
    ensures Inv(Snap(s, id, firstPage, computed))
  {
    var q := s.seqs[id];
    var t := Snap(s, id, firstPage, computed);
    assert SeqOk(s, id);
    forall k | 0 <= k < |q.table| ensures PageOk(t.blocks[q.table[k]], k, id, t.seqs[id], t.entries, t.size) {
      OwnedPage(s, id, k);
      if k < firstPage {
        StartMonotone(k + 1, firstPage, s.size);
      } else if k >= q.published {
        StartMonotone(q.published, k, s.size);
        NoTailsAbove(s, id, k, q.table[k]);
      }
    }
    SeqStepKeepsInv(s, t, id, {});
  }

  /** A waiting page without other references only loses its hash. */
  function Unhash(s: State, id: nat): State
    requires id in s.seqs && s.seqs[id].dirty < |s.seqs[id].table| && s.seqs[id].table[s.seqs[id].dirty] < |s.blocks|
  {
    var q := s.seqs[id];
    var b := q.table[q.dirty];
    var t := WithBlock(s, b, s.blocks[b].(hash := [])).(index := Unindexed(s, b));
    WithSeq(t, id, q.(dirty := q.dirty + 1))
  }

  ghost predicate Unhashable(s: State, id: nat)
    requires id in s.seqs
  {
    var q := s.seqs[id];
    q.published <= q.dirty < q.dirtyEnd <= |q.table| && q.table[q.dirty] < |s.blocks|
      && s.blocks[q.table[q.dirty]].refs <= 1
  }

  lemma SoleOwner(s: State, id: nat, k: nat)
    requires Inv(s) && id in s.seqs && k < |s.seqs[id].table| && s.seqs[id].table[k] < |s.blocks|
    requires s.blocks[s.seqs[id].table[k]].refs <= 1
    ensures s.blocks[s.seqs[id].table[k]].owners == {OfSeq(id, k)}
    ensures forall i :: 0 <= i < |s.seqs[id].table| && i != k ==> s.seqs[id].table[i] != s.seqs[id].table[k]
  {
    OwnedPage(s, id, k);
    var owners := s.blocks[s.seqs[id].table[k]].owners;
    assert |owners - {OfSeq(id, k)}| == 0;
    forall i | 0 <= i < |s.seqs[id].table| && i != k ensures s.seqs[id].table[i] != s.seqs[id].table[k] {
      OwnedPage(s, id, i);
    }
  }

  lemma UnhashKeepsInv(s: State, id: nat)
    requires Inv(s) && id in s.seqs && Unhashable(s, id)
    ensures Inv(Unhash(s, id))
  {
    var q := s.seqs[id];
    var t := Unhash(s, id);
    OwnedPage(s, id, q.dirty);
    SoleOwner(s, id, q.dirty);
    assert SeqOk(s, id);
    forall k | 0 <= k < |q.table| ensures PageOk(t.blocks[q.table[k]], k, id, t.seqs[id], t.entries, t.size) {
      assert PageOk(s.blocks[q.table[k]], k, id, q, s.entries, s.size);
    }
    UnindexedOk(s, t, q.table[q.dirty]);
    SeqStepKeepsInv(s, t, id, {q.table[q.dirty]});
  }

  // ----- reusing a tail clone

  /** An idle tail clone of a retained prefix becomes the page after the prefix's complete pages:
      its prefix rows are computed, and it drops the hash of the previous request's history. */
  function AdoptClone(s: State, id: nat, key: Key, c: nat): State
    requires id in s.seqs && c < |s.blocks|
  {
    var q := s.seqs[id];
    var t := WithBlock(s, c, Share(s.blocks[c], OfSeq(id, |q.table|)).(hash := [])).(index := Unindexed(s, c));
    WithSeq(t, id, q.(table := q.table + [c], computed := |key|))
  }

  ghost predicate Adoptable(s: State, id: nat, key: Key, c: nat)
    requires id in s.seqs
  {
    var q := s.seqs[id];
    && key in s.entries && c in s.entries[key].clones && c < |s.blocks| && s.blocks[c].refs == 1
    && q.dirtyEnd <= |q.table| && q.published == |q.table| == s.entries[key].full
    && q.computed == Start(|q.table|, s.size) && |key| <= |q.tokens| && key == q.tokens[..|key|] && key == OwnKey(q)
  }

  lemma IdleClone(s: State, id: nat, key: Key, c: nat)
    requires Inv(s) && id in s.seqs && Adoptable(s, id, key, c)
    ensures s.blocks[c].owners == {OfClone(key)} && c !in s.seqs[id].table
    ensures CloneOk(s.blocks[c], key, s.entries[key].full, s.size) && BlockOk(s.blocks[c], s.size)
    ensures |key| == Start(s.entries[key].full, s.size) + s.entries[key].tail && s.entries[key].tail < s.size
  {
    assert EntryOk(s, key) && BlockOk(s.blocks[c], s.size);
    assert |s.blocks[c].owners - {OfClone(key)}| == 0;
    forall k | 0 <= k < |s.seqs[id].table| ensures s.seqs[id].table[k] != c {
      OwnedPage(s, id, k);
    }
  }

  lemma AdoptCloneSeqOk(s: State, id: nat, key: Key, c: nat)
    requires Inv(s) && id in s.seqs && Adoptable(s, id, key, c)
    ensures SeqOk(AdoptClone(s, id, key, c), id)
  {
    var q := s.seqs[id];
    var t := AdoptClone(s, id, key, c);
    IdleClone(s, id, key, c);
    assert SeqOk(s, id);
    forall r | 0 <= r < s.size && Start(|q.table|, s.size) + r < |key|
      ensures t.blocks[c].rows[r] == q.tokens[..Start(|q.table|, s.size) + r + 1]
    {
      assert s.blocks[c].rows[r] == key[..Start(|q.table|, s.size) + r + 1];
    }
    forall k | 0 <= k < |q.table| ensures PageOk(t.blocks[q.table[k]], k, id, t.seqs[id], t.entries, t.size) {
      assert PageOk(s.blocks[q.table[k]], k, id, q, s.entries, s.size);
      StartMonotone(k + 1, |q.table|, s.size);
    }
  }

  lemma AdoptCloneKeepsInv(s: State, id: nat, key: Key, c: nat)
    requires Inv(s) && id in s.seqs && Adoptable(s, id, key, c)
    ensures Inv(AdoptClone(s, id, key, c))
  {
    var t := AdoptClone(s, id, key, c);
    IdleClone(s, id, key, c);
    AdoptCloneSeqOk(s, id, key, c);
    UnindexedOk(s, t, c);
    assert SeqOk(s, id) && EntryOk(s, key);
    SeqStepKeepsInv(s, t, id, {c});
  }

  // ----- the token history

  function AppendToken(s: State, id: nat, token: Token): State
    requires id in s.seqs
  {
    WithSeq(s, id, s.seqs[id].(tokens := s.seqs[id].tokens + [token]))
  }

  lemma AppendTokenKeepsInv(s: State, id: nat, token: Token)
    requires Inv(s) && id in s.seqs
    ensures Inv(AppendToken(s, id, token))
  {
    var q := s.seqs[id];
    var t := AppendToken(s, id, token);
    assert SeqOk(s, id);
    forall k | 0 <= k < |q.table| ensures PageOk(t.blocks[q.table[k]], k, id, t.seqs[id], t.entries, t.size) {
      assert PageOk(s.blocks[q.table[k]], k, id, q, s.entries, s.size);
      forall n | 0 <= n <= q.computed ensures t.seqs[id].tokens[..n] == q.tokens[..n] { }
    }
    SeqStepKeepsInv(s, t, id, {});
  }
}
