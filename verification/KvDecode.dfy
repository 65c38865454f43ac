/** What decoding relies on: which pages the next token needs, who else may hold them, and what a
    request's pages look like on the CPU while it is swapped out. */
module KvDecode {
  import opened Paging
  import opened KvState
  import opened KvSteps
  import opened KvPublishSteps
  import opened KvEntrySteps
  import opened KvSwap
  import opened KvRuns
  import opened KvCapacity
  import opened FiniteSets
  import opened KvAdmission

  /** There are pages for all tokens but the newest; some rows may be missing. */
  ghost predicate Decodes(s: State, id: nat)
    requires s.size > 0 && id in s.seqs
  {
    var q := s.seqs[id];
    q.computed < |q.tokens| && |q.table| == PagesFor(|q.tokens| - 1, s.size) && Caught(q, s.size)
  }

  /** All rows but that of the newest token are computed, and their pages are all the pages. */
  ghost predicate DecodeReady(s: State, id: nat)
    requires s.size > 0 && id in s.seqs
  {
    Decodes(s, id) && s.seqs[id].computed + 1 == |s.seqs[id].tokens|
  }

  /** The next row starts a page. */
  predicate Crosses(q: Sequence, size: nat)
    requires size > 0
  {
    |q.tokens| % size == 1
  }

  lemma CrossingPages(q: Sequence, size: nat)
    requires size > 1 && q.tokens != [] && |q.table| == PagesFor(|q.tokens| - 1, size)
    ensures if Crosses(q, size) then Start(|q.table|, size) == |q.tokens| - 1
            else |q.table| > 0 && Start(|q.table| - 1, size) < |q.tokens| <= Start(|q.table|, size)
    ensures PagesFor(|q.tokens|, size) == |q.table| + (if Crosses(q, size) then 1 else 0)
  {
    NextPage(|q.tokens|, size);
    PagesCover(|q.tokens|, size);
  }

  /** The scheduler's test before it plans a decode step. */
  predicate CanAppend(s: State, id: nat)
    requires s.size > 0 && id in s.seqs
  {
    var q := s.seqs[id];
    var required :=
      if Crosses(q, s.size) then 1
      else if q.table == [] || !SharedPage(s, q.table[|q.table| - 1]) then 0
      else if CacheOwnsTail(s, id) && s.blocks[q.table[|q.table| - 1]].refs == 2 then 0
      else 1;
    required <= |FreePages(s)| + |Reclaimable(s, {})|
  }

  /** The last page belongs to the retained prefix of the request. */
  predicate CacheOwnsTail(s: State, id: nat)
    requires id in s.seqs
  {
    var q, key := s.seqs[id], OwnKey(s.seqs[id]);
    q.table != [] && key in s.entries
      && (q.table[|q.table| - 1] in s.entries[key].blocks || q.table[|q.table| - 1] in s.entries[key].clones)
  }

  /** An unfinished last page is held by its request and otherwise only by the request's own prefix. */
  lemma TailOwners(s: State, id: nat, k: nat, o: Owner)
    requires Inv(s) && Calm(s) && id in s.seqs && k < |s.seqs[id].table| && s.seqs[id].published <= k
    requires s.seqs[id].table[k] < |s.blocks| && o in s.blocks[s.seqs[id].table[k]].owners && o != OfSeq(id, k)
    ensures Of(o, OwnKey(s.seqs[id])) && OwnKey(s.seqs[id]) in s.entries
  {
    OwnedPage(s, id, k);
  }

  /** A shared last page is among the pages of the request's retained prefix: the fallback of copy on
      write, evicting that prefix, is always open. */
  lemma SharedTailIsCached(s: State, id: nat)
    requires Inv(s) && Calm(s) && id in s.seqs && s.seqs[id].table != [] && s.seqs[id].published < |s.seqs[id].table|
    requires SharedPage(s, s.seqs[id].table[|s.seqs[id].table| - 1])
    ensures CacheOwnsTail(s, id)
  {
    var k := |s.seqs[id].table| - 1;
    var b := s.seqs[id].table[k];
    OwnedPage(s, id, k);
    if forall o :: o in s.blocks[b].owners ==> o == OfSeq(id, k) {
      SubsetSize(s.blocks[b].owners, {OfSeq(id, k)});
    }
    var o :| o in s.blocks[b].owners && o != OfSeq(id, k);
    TailOwners(s, id, k, o);
    assert Held(s, b, o);
  }

  /** The last page of a request that decodes into it: there is one, and it is not complete. */
  predicate HasOpenTail(q: Sequence) { q.table != [] && q.published < |q.table| }

  /** Only the page table of request id changed, and only in its last page, which is now its own; if that
      page was published, it is not any more. */
  ghost predicate TailCopied(s0: State, s: State, id: nat) {
    && Good(s) && OthersKept(s0, s, id)
    && var q0, q := s0.seqs[id], s.seqs[id];
       && |q.table| == |q0.table| && q == q0.(table := q.table, published := q.published)
       && (q.table != [] ==> q.table[..|q.table| - 1] == q0.table[..|q.table| - 1])
       && (q.published == q0.published || (q0.published == |q0.table| && q.published == |q.table| - 1))
       && OwnTail(s, id)
  }

  /** The last page, if there is one, is not shared. */
  predicate OwnTail(s: State, id: nat)
    requires id in s.seqs
  {
    var q := s.seqs[id];
    q.table == [] || !SharedPage(s, q.table[|q.table| - 1])
  }

  /** Another request holds the last page of request id. */
  ghost predicate OthersHoldTail(s: State, id: nat)
    requires id in s.seqs && s.seqs[id].table != [] && s.seqs[id].table[|s.seqs[id].table| - 1] < |s.blocks|
  {
    var k := |s.seqs[id].table| - 1;
    exists o :: o in s.blocks[s.seqs[id].table[k]].owners && o.OfSeq? && o != OfSeq(id, k)
  }

  /** Copy on write gets the request a last page of its own: it has one, or a page can be had without its
      retained prefix, or its prefix holds the last page and giving it up leaves the request alone with it
      or sets a page free. */
  ghost predicate CanCopy(s: State, id: nat)
    requires Inv(s) && id in s.seqs
  {
    || OwnTail(s, id)
    || |Available(s, Match(s, id))| > 0
    || (CacheOwnsTail(s, id)
      && ((OwnedPage(s, id, |s.seqs[id].table| - 1); !OthersHoldTail(s, id)) || |Available(s, {})| > 0))
  }

  /** Into a last page that is not published the copy is always possible: nobody but the request's own
      prefix can share it. */
  lemma OpenTailCanCopy(s: State, id: nat)
    requires Good(s) && id in s.seqs && HasOpenTail(s.seqs[id])
    ensures CanCopy(s, id)
  {
    var k := |s.seqs[id].table| - 1;
    OwnedPage(s, id, k);
    if !OwnTail(s, id) {
      SharedTailIsCached(s, id);
      forall o | o in s.blocks[s.seqs[id].table[k]].owners && o != OfSeq(id, k) ensures !o.OfSeq? {
        TailOwners(s, id, k, o);
      }
    }
  }

  /** Only retained prefixes went. */
  ghost predicate Evicted(s0: State, s: State) {
    Good(s) && s.seqs == s0.seqs && s.size == s0.size && |s.blocks| == |s0.blocks|
  }

  lemma SameTailCached(s: State, t: State, id: nat)
    requires id in s.seqs && Shrunk(s, t, Match(s, id))
    ensures CacheOwnsTail(t, id) <==> CacheOwnsTail(s, id)
  {
  }

  lemma ShrunkWeaken(s: State, t: State, keep: set<Key>)
    requires Shrunk(s, t, keep)
    ensures Shrunk(s, t, {})
  {
    forall b | 0 <= b < |s.blocks| ensures BlockShrunk(s.blocks[b], t.blocks[b], {}) {
      assert BlockShrunk(s.blocks[b], t.blocks[b], keep);
    }
  }

  /** Without any retained prefix a page is held by requests only. */
  lemma OnlyRequestsHold(s: State, t: State, id: nat)
    requires Inv(s) && Inv(t) && Shrunk(s, t, {}) && t.entries == map[] && id in s.seqs && s.seqs[id].table != []
    ensures s.seqs[id].table[|s.seqs[id].table| - 1] < |s.blocks|
    ensures OwnTail(t, id) <==> !OthersHoldTail(s, id)
  {
    hide SeqOk, EntryOk, RowsHold, Private, IndexOk;
    var k := |s.seqs[id].table| - 1;
    var b := s.seqs[id].table[k];
    OwnedPage(s, id, k);
    OwnedPage(t, id, k);
    assert BlockShrunk(s.blocks[b], t.blocks[b], {});
    forall o | o in t.blocks[b].owners ensures o.OfSeq? {
      assert Held(t, b, o);
    }
    if OthersHoldTail(s, id) {
      var o :| o in s.blocks[b].owners && o.OfSeq? && o != OfSeq(id, k);
      SubsetSize({o, OfSeq(id, k)}, t.blocks[b].owners);
    } else {
      assert t.blocks[b].owners == {OfSeq(id, k)};
    }
  }

  /** Copy on write, after everything but the request's own prefix was evicted in vain, gave that up too. */
  lemma LastResort(s: State, t: State, u: State, id: nat)
    requires Good(s) && Inv(t) && Inv(u) && id in s.seqs && !OwnTail(s, id)
    requires Shrunk(s, t, Match(s, id)) && t.entries.Keys <= Match(s, id) && |Available(s, Match(s, id))| == 0
    requires CacheOwnsTail(t, id) && Shrunk(t, u, {}) && u.entries == t.entries - {OwnKey(s.seqs[id])}
    ensures Available(u, {}) == Available(s, {})
    ensures CanCopy(s, id) <==> OwnTail(u, id) || |Available(s, {})| > 0
  {
    hide Inv, Whole, Shape;
    SameTailCached(s, t, id);
    ShrunkWeaken(s, t, Match(s, id));
    ShrunkTransitive(s, t, u, {});
    ShrunkKeepsAvailable(s, u, {});
    assert u.entries.Keys == {};
    OnlyRequestsHold(s, u, id);
  }

  lemma OwnerHolds(s: State, b: nat, o: Owner)
    requires Inv(s) && b < |s.blocks| && o in s.blocks[b].owners
    ensures Held(s, b, o)
  {
  }

  /** Another request that holds the last page goes on holding it. */
  lemma OthersStillHold(s0: State, s: State, id: nat)
    requires Good(s0) && Evicted(s0, s) && id in s.seqs && !OwnTail(s0, id)
    ensures s0.seqs[id].table[|s0.seqs[id].table| - 1] < |s0.blocks|
    ensures OthersHoldTail(s0, id) ==> !OwnTail(s, id)
  {
    hide Inv, PageOk, Shape, Whole;
    var k := |s.seqs[id].table| - 1;
    var b := s.seqs[id].table[k];
    OwnedPage(s0, id, k);
    OwnedPage(s, id, k);
    if OthersHoldTail(s0, id) {
      var o :| o in s0.blocks[b].owners && o.OfSeq? && o != OfSeq(id, k);
      OwnerHolds(s0, b, o);
      HolderIsOwner(s, b, o);
      HolderIsOwner(s, b, OfSeq(id, k));
      SubsetSize({o, OfSeq(id, k)}, s.blocks[b].owners);
    }
  }

  lemma TailCopiedFrom(s0: State, s: State, t: State, id: nat)
    requires Evicted(s0, s) && id in s0.seqs
    requires TailCopied(s, t, id)
    ensures TailCopied(s0, t, id)
  {
  }

  lemma TailIsOwn(s0: State, s: State, id: nat)
    requires Evicted(s0, s) && id in s.seqs && OwnTail(s, id)
    ensures TailCopied(s0, s, id)
  {
  }

  lemma ReplaceTailReady(s: State, id: nat, k: nat, b: nat)
    requires Inv(s) && id in s.seqs && k == |s.seqs[id].table| - 1 && s.seqs[id].published <= k && b in FreePages(s)
    requires Settled(s, id) || s.seqs[id].dirty == k
    ensures Replaceable(s, id, k, b, s.size) && s.seqs[id].table[k] < |s.blocks|
    ensures s.blocks[s.seqs[id].table[k]].refs > 0
    ensures |s.blocks[s.seqs[id].table[k]].rows| == |s.blocks[b].rows| == s.size
  {
    assert SeqOk(s, id);
    ReplacePageSteps(s, id, k, b, s.size);
  }

  lemma ReplaceTailDone(s: State, id: nat, k: nat, b: nat)
    requires Good(s) && id in s.seqs && HasOpenTail(s.seqs[id]) && k == |s.seqs[id].table| - 1
    requires Replaceable(s, id, k, b, s.size) && s.seqs[id].table[k] < |s.blocks|
    requires s.blocks[s.seqs[id].table[k]].refs > 0
    requires |s.blocks[s.seqs[id].table[k]].rows| == |s.blocks[b].rows| == s.size
    ensures TailCopied(s, ReplacePage(s, id, k, b, s.size), id)
  {
    hide Shape, Whole;
    ReplacePageKeepsInv(s, id, k, b, s.size);
    StaysGood(s, ReplacePage(s, id, k, b, s.size), id);
    assert ReplacePage(s, id, k, b, s.size).blocks[b].refs == 1;
  }

  lemma CopyStaysOpen(s: State, id: nat, k: nat, b: nat)
    requires id in s.seqs && HasOpenTail(s.seqs[id]) && k == |s.seqs[id].table| - 1 && s.seqs[id].table[k] < |s.blocks|
    requires b < |s.blocks| && s.blocks[s.seqs[id].table[k]].refs > 0
    requires |s.blocks[s.seqs[id].table[k]].rows| == |s.blocks[b].rows| == s.size
    ensures HasOpenTail(ReplacePage(s, id, k, b, s.size).seqs[id])
  {
  }

  /** A published last page is taken back: it waits to be made private. */
  function Reopened(s: State, id: nat): State
    requires id in s.seqs && s.seqs[id].table != []
  {
    Snap(s, id, |s.seqs[id].table| - 1, s.seqs[id].computed)
  }

  /** A request whose last page is published has all its pages filled. */
  lemma TailIsFull(s: State, id: nat)
    requires Inv(s) && id in s.seqs && s.seqs[id].table != [] && !HasOpenTail(s.seqs[id])
    ensures s.seqs[id].published == |s.seqs[id].table| && s.seqs[id].computed == Start(|s.seqs[id].table|, s.size)
  {
    SeqIsOk(s, id);
    OwnedPage(s, id, |s.seqs[id].table| - 1);
  }

  lemma ReopenTail(s: State, id: nat, b: nat)
    requires Good(s) && id in s.seqs && s.seqs[id].table != [] && !HasOpenTail(s.seqs[id]) && b in FreePages(s)
    ensures var k := |s.seqs[id].table| - 1;
            && Inv(Reopened(s, id)) && Replaceable(Reopened(s, id), id, k, b, s.size)
            && s.seqs[id].table[k] < |s.blocks| && s.blocks[s.seqs[id].table[k]].refs > 0
            && |s.blocks[s.seqs[id].table[k]].rows| == |s.blocks[b].rows| == s.size
            && s.seqs[id].published == k + 1
  {
    hide Inv, PageOk, Shape, Whole;
    var k := |s.seqs[id].table| - 1;
    TailIsFull(s, id);
    SnapKeepsInv(s, id, k, s.seqs[id].computed);
    ReplaceTailReady(Reopened(s, id), id, k, b);
  }

  lemma ReopenedTailDone(s: State, id: nat, b: nat)
    requires Good(s) && id in s.seqs && s.seqs[id].table != [] && !HasOpenTail(s.seqs[id]) && b in FreePages(s)
    ensures var k := |s.seqs[id].table| - 1;
            && s.seqs[id].table[k] < |s.blocks| && s.blocks[s.seqs[id].table[k]].refs > 0
            && |s.blocks[s.seqs[id].table[k]].rows| == |s.blocks[b].rows| == s.size
            && TailCopied(s, Rest(ReplacePage(Reopened(s, id), id, k, b, s.size), id), id)
            && HasOpenTail(Rest(ReplacePage(Reopened(s, id), id, k, b, s.size), id).seqs[id])
  {
    hide Inv, Shape, Whole;
    var k := |s.seqs[id].table| - 1;
    ReopenTail(s, id, b);
    ReplacePageKeepsInv(Reopened(s, id), id, k, b, s.size);
    var copied := ReplacePage(Reopened(s, id), id, k, b, s.size);
    RestKeepsInv(copied, id);
    StaysGood(s, Rest(copied, id), id);
    assert copied.blocks[b].refs == 1;
  }

  /** The request gets page b for a row that starts a page. */
  lemma AppendForDecode(s: State, id: nat, b: nat)
    requires Good(s) && id in s.seqs && b in FreePages(s)
    ensures var t := AppendFresh(s, id, b);
            && Good(t) && OthersKept(s, t, id) && t.seqs[id] == s.seqs[id].(table := s.seqs[id].table + [b])
            && !SharedPage(t, b)
  {
    AppendFreshKeepsInv(s, id, b);
  }

  /** Without its retained prefix, a request holds its last page alone. */
  lemma TailAlone(s: State, id: nat)
    requires Inv(s) && Calm(s) && id in s.seqs && s.seqs[id].table != [] && s.seqs[id].published < |s.seqs[id].table|
    requires OwnKey(s.seqs[id]) !in s.entries
    ensures !SharedPage(s, s.seqs[id].table[|s.seqs[id].table| - 1])
  {
    if SharedPage(s, s.seqs[id].table[|s.seqs[id].table| - 1]) {
      SharedTailIsCached(s, id);
    }
  }

  // ----- prefill

  lemma RowHasPage(s: State, id: nat, k: nat)
    requires Inv(s) && Calm(s) && id in s.seqs && s.seqs[id].computed < |s.seqs[id].tokens|
    requires s.seqs[id].computed < Start(|s.seqs[id].table|, s.size) && k == PageOf(s.seqs[id].computed, s.size)
    ensures Start(k, s.size) <= s.seqs[id].computed && NextRow(s, id, k, s.seqs[id].computed - Start(k, s.size))
  {
    PageOfBounds(s.seqs[id].computed, s.size);
    if |s.seqs[id].table| <= k { StartMonotone(|s.seqs[id].table|, k, s.size); }
  }

  /** Since s0, request id has only published its first k pages. */
  ghost predicate Publishing(s0: State, s: State, id: nat, k: nat) {
    && Good(s) && OthersKept(s0, s, id) && s.entries == s0.entries
    && s.seqs[id] == s0.seqs[id].(published := k)
  }

  lemma PublishOne(s0: State, s: State, id: nat, k: nat)
    requires id in s.seqs && Publishing(s0, s, id, k) && k < PageOf(s.seqs[id].computed, s.size)
    ensures var q := s.seqs[id];
            q.published < |q.table| && q.table[q.published] < |s.blocks| && Start(q.published + 1, s.size) <= |q.tokens|
    ensures Publishing(s0, PublishNext(s, id), id, k + 1)
  {
    hide Inv, Shape, Whole;
    CompletePage(s, id, k);
    PublishKeepsOthers(s0, s, id);
    SeqIsOk(s, id);
    StaysGood(s, PublishNext(s, id), id);
  }

  /** Since s0, request id has only computed rows. */
  ghost predicate Computing(s0: State, s: State, id: nat) {
    && Good(s) && OthersKept(s0, s, id) && s.entries == s0.entries
    && s.seqs[id] == s0.seqs[id].(computed := s.seqs[id].computed)
  }

  lemma ComputeOne(s0: State, s: State, id: nat, k: nat, r: nat)
    requires id in s.seqs && Computing(s0, s, id) && NextRow(s, id, k, r)
    ensures s.seqs[id].table[k] < |s.blocks| && r < |s.blocks[s.seqs[id].table[k]].rows|
    ensures Computing(s0, WriteRow(s, id, k, r), id)
  {
    hide Inv, Shape, Whole;
    WriteRowKeepsInv(s, id, k, r);
    StaysGood(s, WriteRow(s, id, k, r), id);
    assert WriteRow(s, id, k, r).seqs[id] == s.seqs[id].(computed := s.seqs[id].computed + 1);
  }

  /** The next row goes where the position falls among the request's pages. */
  function WriteNextRow(s: State, id: nat): State
    requires s.size > 0 && id in s.seqs
  {
    var q := s.seqs[id];
    var k := PageOf(q.computed, s.size);
    var r := q.computed - Start(k, s.size);
    if q.computed < |q.tokens| && k < |q.table| && q.table[k] < |s.blocks| && 0 <= r < |s.blocks[q.table[k]].rows|
    then WriteRow(s, id, k, r)
    else s
  }

  lemma ComputeNext(s0: State, s: State, id: nat)
    requires id in s.seqs && Computing(s0, s, id)
    requires s.seqs[id].computed < |s.seqs[id].tokens| && s.seqs[id].computed < Start(|s.seqs[id].table|, s.size)
    ensures Computing(s0, WriteNextRow(s, id), id)
    ensures WriteNextRow(s, id).seqs[id].computed == s.seqs[id].computed + 1
  {
    hide Inv, SpansOk;
    var k := PageOf(s.seqs[id].computed, s.size);
    RowHasPage(s, id, k);
    ComputeOne(s0, s, id, k, s.seqs[id].computed - Start(k, s.size));
  }

  lemma PageRangeGrows(start: nat, end: nat, size: nat)
    requires size > 0 && start <= end
    ensures PageOf(start, size) <= PageOf(end, size)
  {
    PageOfBounds(start, size);
    PageOfBounds(end, size);
    if PageOf(end, size) < PageOf(start, size) { StartMonotone(PageOf(end, size) + 1, PageOf(start, size), size); }
  }

  lemma CompletePage(s: State, id: nat, k: nat)
    requires Inv(s) && Calm(s) && id in s.seqs && s.seqs[id].published == k < PageOf(s.seqs[id].computed, s.size)
    ensures Publishable(s, id)
  {
    var q := s.seqs[id];
    assert SeqOk(s, id);
    PageOfBounds(q.computed, s.size);
    StartMonotone(k + 1, PageOf(q.computed, s.size), s.size);
    if |q.table| <= k { StartMonotone(|q.table|, k, s.size); }
  }

  /** A request whose next row lies in its last page has an unfinished last page. */
  lemma TailIsOpen(s: State, id: nat)
    requires s.size > 1 && id in s.seqs && Decodes(s, id) && !Crosses(s.seqs[id], s.size)
    ensures HasOpenTail(s.seqs[id])
  {
    CrossingPages(s.seqs[id], s.size);
    StartReflects(s.seqs[id].published, |s.seqs[id].table|, s.size);
  }

  /** Whether a page for the next token and a last page of its own can be had. */
  ghost predicate CanPlan(s: State, id: nat)
    requires s.size > 0 && Inv(s) && id in s.seqs
  {
    if Crosses(s.seqs[id], s.size) then |Available(s, {})| > 0 else CanCopy(s, id)
  }

  /** The scheduler's test never promises more than can be had, for a request with pages for all tokens but
      the newest. */
  lemma CanAppendSuffices(s: State, id: nat)
    requires Good(s) && s.size > 1 && id in s.seqs && Decodes(s, id) && CanAppend(s, id)
    ensures CanPlan(s, id)
  {
    CapacityIsAvailable(s, {});
    if !Crosses(s.seqs[id], s.size) {
      TailIsOpen(s, id);
      OpenTailCanCopy(s, id);
    }
  }

  lemma CaughtUp(q: Sequence, size: nat)
    requires size > 0
    ensures Caught(q, size) <==> q.published == PageOf(q.computed, size)
  {
    PageOfBounds(q.computed, size);
    if Caught(q, size) { PageIsUnique(q.published, PageOf(q.computed, size), q.computed, size); }
  }

  /** The newest token is the last one of its page. */
  predicate CompletesPage(q: Sequence, size: nat)
    requires size > 0
  {
    |q.tokens| % size == 0
  }

  /** The newest row of a request that misses rows lies in its last page, behind the computed ones. */
  lemma NewestIsAhead(s: State, id: nat, k: nat, r: int)
    requires Good(s) && id in s.seqs && s.seqs[id].computed + 1 < |s.seqs[id].tokens| && Caught(s.seqs[id], s.size)
    requires |s.seqs[id].table| == k + 1 == PagesFor(|s.seqs[id].tokens|, s.size)
    requires r == |s.seqs[id].tokens| - 1 - Start(k, s.size)
    ensures 0 <= r < s.size && RowAhead(s, id, k, r)
  {
    PagesCover(|s.seqs[id].tokens|, s.size);
    StartReflects(s.seqs[id].published, k + 1, s.size);
  }

  /** A page is full by its length. */
  lemma LastPageEnds(s: State, id: nat, k: nat)
    requires Inv(s) && s.size > 0 && id in s.seqs
    requires |s.seqs[id].table| == k + 1 == PagesFor(|s.seqs[id].tokens|, s.size)
    requires CompletesPage(s.seqs[id], s.size)
    ensures Start(k + 1, s.size) == |s.seqs[id].tokens| && forall i :: 0 <= i <= k ==> s.seqs[id].table[i] < |s.blocks|
  {
    var n := |s.seqs[id].tokens|;
    PagesCover(n, s.size);
    PageOfRow(n, s.size);
    assert Start(n / s.size, s.size) == n;
    StartReflects(k, n / s.size, s.size);
    if k + 1 < n / s.size { StartMonotone(k + 1, n / s.size, s.size); }
    SeqIsOk(s, id);
  }

  /** The last page of a request carries a hash that leads to it, but its rows are not all computed. */
  ghost predicate PublishedUnread(s: State, id: nat)
    requires id in s.seqs
  {
    var q := s.seqs[id];
    && q.table != [] && q.table[|q.table| - 1] < |s.blocks| && q.computed < Start(|q.table|, s.size)
    && var b := q.table[|q.table| - 1];
       s.blocks[b].hash != [] && s.blocks[b].hash in s.index && s.index[s.blocks[b].hash] == b
  }

  // ----- retaining a prefix

  /** Entry `key` has the first k pages of request id. */
  ghost predicate Storing(s0: State, s: State, id: nat, key: Key, full: nat, tail: nat, k: nat) {
    && s.size > 0 && Inv(s) && s.seqs == s0.seqs && s.size == s0.size && |s.blocks| == |s0.blocks|
    && id in s.seqs && Calm(s) && Whole(s, {key})
    && key in s.entries && s.entries[key].full == full && s.entries[key].tail == tail
    && key == OwnKey(s.seqs[id]) && |key| <= s.seqs[id].computed <= |s.seqs[id].tokens| && full <= s.seqs[id].published
    && k <= full + (if tail > 0 then 1 else 0) <= |s.seqs[id].table| && s.entries[key].blocks == s.seqs[id].table[..k]
  }

  lemma StoreOne(s0: State, s: State, id: nat, key: Key, full: nat, tail: nat, k: nat)
    requires Storing(s0, s, id, key, full, tail, k) && k < full + (if tail > 0 then 1 else 0)
    ensures s.seqs[id].table[k] < |s.blocks|
    ensures Storing(s0, TakePage(s, key, s.seqs[id].table[k]), id, key, full, tail, k + 1)
  {
    hide Inv;
    OwnedPage(s, id, k);
    TakePageKeepsInv(s, id, key, s.seqs[id].table[k]);
    assert TakePage(s, key, s.seqs[id].table[k]).entries[key].blocks == s.seqs[id].table[..k + 1];
  }

  lemma PrefixPages(q: Sequence, n: nat, full: nat, size: nat)
    requires size > 0 && n <= q.computed <= Start(|q.table|, size) && Caught(q, size) && full == PageOf(n, size)
    ensures Start(full, size) <= n < Start(full, size) + size
    ensures full <= q.published && full + (if n > Start(full, size) then 1 else 0) <= |q.table|
  {
    PageOfBounds(n, size);
    StartReflects(full, q.published + 1, size);
    if n > Start(full, size) {
      StartReflects(full, |q.table|, size);
    } else {
      FloorBelowCeil(full, |q.table|, n, size);
    }
  }

  /** What is to be retained is computed and published as far as complete pages go. */
  lemma PrefixToStore(s: State, id: nat, full: nat)
    requires Good(s) && id in s.seqs && s.seqs[id].computed == s.seqs[id].prompt && Caught(s.seqs[id], s.size)
    requires full == PageOf(|OwnKey(s.seqs[id])|, s.size)
    ensures var n, q := |OwnKey(s.seqs[id])|, s.seqs[id];
            && n == q.boundary < q.computed <= |q.tokens| && Start(full, s.size) <= n < Start(full, s.size) + s.size
            && full <= q.published && full + (if n > Start(full, s.size) then 1 else 0) <= |q.table|
  {
    SeqIsOk(s, id);
    PrefixPages(s.seqs[id], |OwnKey(s.seqs[id])|, full, s.size);
  }

  lemma StoreStart(s: State, id: nat, key: Key, full: nat, tail: nat)
    requires Good(s) && id in s.seqs && key == OwnKey(s.seqs[id]) && key !in s.entries && key != []
    requires |key| <= s.seqs[id].computed <= |s.seqs[id].tokens|
    requires Start(full, s.size) + tail == |key| && tail < s.size
    requires full <= s.seqs[id].published && full + (if tail > 0 then 1 else 0) <= |s.seqs[id].table|
    ensures Storing(s, NewEntry(s, key, full, tail), id, key, full, tail, 0)
  {
    hide Inv, SpansOk;
    NewEntryKeepsInv(s, key, full, tail);
  }

  // ----- swapping

  /** Since s0, request id has only given up pages, from the last one down. */
  ghost predicate Releasing(s0: State, s: State, id: nat) {
    && Good(s) && OthersKept(s0, s, id) && s.entries == s0.entries && s.index == s0.index
    && |s.seqs[id].table| <= |s0.seqs[id].table| && OnlyReleased(s0, s, id)
  }

  /** Every reference that is not a page table entry of request id is as it was. */
  ghost predicate OnlyReleased(s0: State, s: State, id: nat) {
    && |s.blocks| == |s0.blocks|
    && forall b: nat, o: Owner :: b < |s.blocks| && !(o.OfSeq? && o.id == id) ==>
      (o in s.blocks[b].owners <==> o in s0.blocks[b].owners)
  }

  /** The references of request id are gone, and only those. */
  ghost predicate Released(s0: State, s: State, id: nat) {
    && |s.blocks| == |s0.blocks|
    && forall b: nat, o: Owner :: b < |s.blocks| ==>
         (o in s.blocks[b].owners <==> o in s0.blocks[b].owners && !(o.OfSeq? && o.id == id))
  }

  lemma ReleaseOne(s0: State, s: State, id: nat)
    requires id in s.seqs && Releasing(s0, s, id) && s.seqs[id].table != []
    ensures var q := s.seqs[id]; q.table[|q.table| - 1] < |s.blocks| && s.blocks[q.table[|q.table| - 1]].refs > 0
    ensures Releasing(s0, PopPage(s, id), id)
  {
    hide Inv, Shape, Whole;
    PopPageKeepsInv(s, id);
    StaysGood(s, PopPage(s, id), id);
  }

  /** A request that gave up all pages holds nothing. */
  lemma AllReleased(s0: State, s: State, id: nat)
    requires id in s.seqs && Releasing(s0, s, id) && s.seqs[id].table == []
    ensures Released(s0, s, id)
    ensures s.seqs[id].computed == s.seqs[id].published == 0
  {
    assert SeqOk(s, id);
    forall b: nat, o: Owner | b < |s.blocks| && o in s.blocks[b].owners ensures !(o.OfSeq? && o.id == id) {
      assert Held(s, b, o);
    }
  }

  /** The first k pages of a swapped-out request are back. */
  ghost predicate SwappingIn(s0: State, s: State, id: nat, v: Saved, k: nat) {
    && s.size > 0 && Inv(s) && OthersKept(s0, s, id) && s.entries == s0.entries && id in s.seqs
    && s.seqs[id].dirty == s.seqs[id].dirtyEnd == 0 && |s.seqs[id].table| == k <= |v.pages|
    && SavedOk(s.seqs[id], v, s.size)
    && s.seqs[id].computed == Restored(v, k, s.size)
    && s.seqs[id].published == (if k < v.published then k else v.published)
    && |v.pages| - k <= |FreePages(s)|
  }

  lemma SwapInStart(s: State, id: nat, v: Saved)
    requires Good(s) && id in s.seqs && s.seqs[id].table == [] && SavedOk(s.seqs[id], v, s.size)
    requires |v.pages| <= |FreePages(s)|
    ensures SwappingIn(s, s, id, v, 0)
  {
    assert SeqOk(s, id);
  }

  lemma SwapInDone(s0: State, s: State, id: nat, v: Saved)
    requires Good(s0) && SwappingIn(s0, s, id, v, |v.pages|)
    ensures Good(s) && s.seqs[id].computed == v.computed && s.seqs[id].published == v.published
  {
    hide Inv, SpansOk, BoundaryOf;
  }

  /** Page k of a swapped-out request comes back on page b: its rows, as far as it has computed ones. */
  function Reload(s: State, id: nat, v: Saved, k: nat, b: nat): State
    requires id in s.seqs && b < |s.blocks| && k < |v.pages|
  {
    var t := AppendFresh(s, id, b);
    if v.computed > Start(k, s.size) then LoadPage(t, id, v.pages[k], Restored(v, k + 1, s.size)) else t
  }

  /** As SwappingIn, but page k is not yet published again. */
  ghost predicate Reloaded(s0: State, s: State, id: nat, v: Saved, k: nat) {
    && s.size > 0 && Inv(s) && OthersKept(s0, s, id) && s.entries == s0.entries && id in s.seqs
    && s.seqs[id].dirty == s.seqs[id].dirtyEnd == 0 && |s.seqs[id].table| == k + 1 <= |v.pages|
    && SavedOk(s.seqs[id], v, s.size)
    && s.seqs[id].computed == Restored(v, k + 1, s.size)
    && s.seqs[id].published == (if k < v.published then k else v.published)
    && |v.pages| - (k + 1) <= |FreePages(s)|
  }

  lemma SwapInFresh(s0: State, s: State, id: nat, v: Saved, k: nat, b: nat)
    requires SwappingIn(s0, s, id, v, k) && k < |v.pages| && b in FreePages(s)
    ensures var t := AppendFresh(s, id, b);
            && Inv(t) && OthersKept(s0, t, id) && |FreePages(t)| == |FreePages(s)| - 1 && b < |s.blocks|
            && SavedOk(t.seqs[id], v, t.size)
            && (v.computed > Start(k, s.size) ==> Loadable(t, id, v.pages[k], Restored(v, k + 1, s.size)))
  {
    FreshPageIsOwn(s, id, b);
    AppendFreshKeepsInv(s, id, b);
    AppendFreshUsesOne(s, id, b);
    assert SavedPageOk(v.pages[k], k, s.seqs[id].tokens, v.computed, s.size);
  }

  lemma ReloadOk(s0: State, s: State, id: nat, v: Saved, k: nat, b: nat)
    requires SwappingIn(s0, s, id, v, k) && k < |v.pages| && b in FreePages(s)
    ensures b < |s.blocks| && Reloaded(s0, Reload(s, id, v, k, b), id, v, k)
  {
    hide Inv;
    SwapInFresh(s0, s, id, v, k, b);
    if v.computed > Start(k, s.size) {
      LoadKeepsOthers(s0, AppendFresh(s, id, b), id, v.pages[k], Restored(v, k + 1, s.size));
    }
  }

  lemma RepublishOk(s0: State, s: State, id: nat, v: Saved, k: nat)
    requires Reloaded(s0, s, id, v, k)
    ensures k >= v.published ==> SwappingIn(s0, s, id, v, k + 1)
    ensures k < v.published ==>
              Publishable(s, id) && s.seqs[id].table[k] < |s.blocks| && Start(k + 1, s.size) <= |s.seqs[id].tokens|
    ensures k < v.published ==> SwappingIn(s0, PublishNext(s, id), id, v, k + 1)
  {
    hide Inv;
    if k < v.published {
      PublishedWasComplete(s.seqs[id], v, k, s.size);
      PublishKeepsOthers(s0, s, id);
    }
  }

  lemma LoadKeepsOthers(s0: State, s: State, id: nat, rows: seq<Key>, upTo: nat)
    requires Inv(s) && id in s.seqs && OthersKept(s0, s, id) && Loadable(s, id, rows, upTo)
    ensures Inv(LoadPage(s, id, rows, upTo)) && OthersKept(s0, LoadPage(s, id, rows, upTo), id)
    ensures FreePages(LoadPage(s, id, rows, upTo)) == FreePages(s)
  {
    LoadPageKeepsInv(s, id, rows, upTo);
  }

  lemma PublishKeepsOthers(s0: State, s: State, id: nat)
    requires Inv(s) && id in s.seqs && OthersKept(s0, s, id) && Publishable(s, id)
    ensures var q := s.seqs[id]; q.table[q.published] < |s.blocks| && q.computed <= |q.tokens|
    ensures Inv(PublishNext(s, id)) && OthersKept(s0, PublishNext(s, id), id)
    ensures FreePages(PublishNext(s, id)) == FreePages(s)
  {
    PublishKeepsInv(s, id);
  }

  /** A page that was published is complete. */
  lemma PublishedWasComplete(q: Sequence, v: Saved, k: nat, size: nat)
    requires SavedOk(q, v, size) && size > 0 && k < v.published
    ensures v.computed > Start(k, size) && Restored(v, k + 1, size) == Start(k + 1, size)
  {
    StartMonotone(k + 1, v.published, size);
  }
}
