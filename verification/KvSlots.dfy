/** Where a decode step writes (prism_infer/engine/input_preparation.py): always to the last page of the page
    table, at the row that the length of the history gives.  That is the place of the newest position only if
    the table has a page for it, which it need not have once a request came back through its retained prefix. */
module KvSlots {
  import opened Paging
  import opened KvState
  import opened KvSteps
  import opened KvSwap
  import opened KvRuns
  import opened KvCapacity
  import opened KvAdmission
  import opened KvDecode
  import opened FiniteSets

  /** The row in its page of the newest of n positions. */
  function SlotRow(n: nat, size: nat): (r: nat)
    requires size > 0 && n > 0
    ensures r < size
  {
    PagesCover(n, size);
    n - 1 - Start(PagesFor(n, size) - 1, size)
  }

  /** The position that the slot of the newest row belongs to. */
  function SlotPosition(q: Sequence, size: nat): nat
    requires size > 0 && q.tokens != [] && q.table != []
  {
    Start(|q.table| - 1, size) + SlotRow(|q.tokens|, size)
  }

  /** There are too few pages for the tokens before the newest one. */
  predicate Short(q: Sequence, size: nat)
    requires size > 0 && q.tokens != []
  {
    |q.table| < PagesFor(|q.tokens| - 1, size)
  }

  /** It has pages, and what is computed is published but for one page at most. */
  predicate Trails(q: Sequence, size: nat) {
    q.table != [] && q.computed < |q.tokens| && Start(q.published, size) <= q.computed <= Start(q.published + 1, size)
  }

  /** A request that goes on decoding.  With too few pages its last page may have been complete, and be a copy
      that is not published. */
  predicate Resumes(q: Sequence, size: nat)
    requires size > 0
  {
    && 0 < q.prompt < |q.tokens| && Trails(q, size) && |q.table| <= PagesFor(|q.tokens| - 1, size)
    && (!Short(q, size) ==> Caught(q, size))
  }

  /** The slot is the place of the newest position exactly if the table has a page for every position. */
  lemma SlotIsRightIff(q: Sequence, size: nat)
    requires size > 0 && q.tokens != [] && q.table != []
    ensures SlotPosition(q, size) == |q.tokens| - 1 <==> |q.table| == PagesFor(|q.tokens|, size)
    ensures |q.table| < PagesFor(|q.tokens|, size) ==> SlotPosition(q, size) < |q.tokens| - 1
  {
    var n := PagesFor(|q.tokens|, size);
    PagesCover(|q.tokens|, size);
    if |q.table| < n { StartMonotone(|q.table| - 1, n - 1, size); }
    if n < |q.table| { StartMonotone(n - 1, |q.table| - 1, size); }
  }

  /** The row of the newest position goes to the slot.  If a row was computed there, and the page is not
      published, the history is there only up to that row. */
  function WriteSlot(s: State, id: nat, row: Key): State
    requires s.size > 0 && id in s.seqs && s.seqs[id].tokens != [] && s.seqs[id].table != []
    requires var b := s.seqs[id].table[|s.seqs[id].table| - 1]; b < |s.blocks| && |s.blocks[b].rows| == s.size
  {
    var q, k := s.seqs[id], |s.seqs[id].table| - 1;
    var r := SlotRow(|q.tokens|, s.size);
    if q.published <= k && SlotPosition(q, s.size) < q.computed then WriteOver(s, id, k, r, row)
    else WriteAhead(s, id, k, r, row)
  }

  lemma LastPage(s: State, id: nat)
    requires Inv(s) && id in s.seqs && s.seqs[id].table != []
    ensures var k := |s.seqs[id].table| - 1;
            var b := s.seqs[id].table[k];
            && s.size > 0 && b < |s.blocks| && |s.blocks[b].rows| == s.size && OfSeq(id, k) in s.blocks[b].owners
            && s.blocks[b].refs == |s.blocks[b].owners| > 0
  {
    hide SeqOk, EntryOk, IndexOk, OwnersHold;
    OwnedPage(s, id, |s.seqs[id].table| - 1);
  }

  /** A last page that is not shared is held at one place only. */
  lemma OwnTailAlone(s: State, id: nat)
    requires Inv(s) && id in s.seqs && s.seqs[id].table != [] && OwnTail(s, id)
    ensures var k := |s.seqs[id].table| - 1;
            s.seqs[id].table[k] < |s.blocks| && s.blocks[s.seqs[id].table[k]].owners == {OfSeq(id, k)}
  {
    hide Inv;
    LastPage(s, id);
    var k := |s.seqs[id].table| - 1;
    var owners := s.blocks[s.seqs[id].table[k]].owners;
    forall o | o in owners ensures o == OfSeq(id, k) {
      SubsetSize({o, OfSeq(id, k)}, owners);
    }
    assert owners == {OfSeq(id, k)};
  }

  /** An unpublished last page: what was computed behind it was published, so the row is either behind all
      computed ones or in the page that holds the last of them. */
  lemma OpenSlot(s: State, id: nat)
    requires Good(s) && id in s.seqs && Trails(s.seqs[id], s.size) && OwnTail(s, id) && HasOpenTail(s.seqs[id])
    ensures var q, k := s.seqs[id], |s.seqs[id].table| - 1;
            if SlotPosition(q, s.size) < q.computed then RowOver(s, id, k, SlotRow(|q.tokens|, s.size))
            else RowAhead(s, id, k, SlotRow(|q.tokens|, s.size))
  {
    hide Inv, SpansOk, BoundaryOf;
    var q, k := s.seqs[id], |s.seqs[id].table| - 1;
    OwnTailAlone(s, id);
    if q.published < k {
      StartMonotone(q.published + 1, k, s.size);
    }
  }

  /** The last page of request id has the hash of a history, but one of its rows is not of that history. */
  ghost predicate HashLies(s: State, id: nat)
    requires id in s.seqs
  {
    && s.seqs[id].table != [] && s.seqs[id].table[|s.seqs[id].table| - 1] < |s.blocks|
    && var b := s.blocks[s.seqs[id].table[|s.seqs[id].table| - 1]];
       && 0 < s.size <= |b.hash| && |b.rows| == s.size
       && exists r :: 0 <= r < s.size && b.rows[r] != b.hash[..|b.hash| - s.size + r + 1]
  }

  /** A request that writes its newest row to its slot harms nobody else exactly if its last page is not
      published.  If it is, a later hit of that page finds a row that is not of the history it asked for. */
  lemma SlotKeepsInvIff(s: State, id: nat, row: Key)
    requires Good(s) && id in s.seqs && Trails(s.seqs[id], s.size) && OwnTail(s, id)
    requires |row| == |s.seqs[id].tokens|
    ensures var b := s.seqs[id].table[|s.seqs[id].table| - 1]; b < |s.blocks| && |s.blocks[b].rows| == s.size
    ensures Inv(WriteSlot(s, id, row)) <==> HasOpenTail(s.seqs[id])
    ensures OthersKept(s, WriteSlot(s, id, row), id) && (HasOpenTail(s.seqs[id]) ==> Good(WriteSlot(s, id, row)))
    ensures !HasOpenTail(s.seqs[id]) ==> HashLies(WriteSlot(s, id, row), id)
    ensures WriteSlot(s, id, row).index == s.index && WriteSlot(s, id, row).entries == s.entries
  {
    hide Inv, SpansOk, BoundaryOf, Whole;
    var q, k := s.seqs[id], |s.seqs[id].table| - 1;
    var r := SlotRow(|q.tokens|, s.size);
    LastPage(s, id);
    SeqIsOk(s, id);
    if HasOpenTail(q) {
      OpenSlot(s, id);
      if SlotPosition(q, s.size) < q.computed {
        WriteOverKeepsInv(s, id, k, r, row);
      } else {
        WriteAheadKeepsInv(s, id, k, r, row);
      }
      StaysGood(s, WriteSlot(s, id, row), id);
    } else {
      TailIsFull(s, id);
      StrayWriteBreaks(s, id, k, r, row);
      PublishedHash(s, id, k);
    }
  }

  lemma TailAfterReturn(q: Sequence, size: nat)
    requires size > 0 && 0 < q.prompt && q.computed == q.prompt && Caught(q, size)
    requires |q.table| == PagesFor(q.prompt, size)
    ensures HasOpenTail(q) <==> q.prompt % size != 0
  {
    PageOfRow(q.prompt, size);
    PageIsUnique(q.published, q.prompt / size, q.prompt, size);
    PagesAre(if q.prompt % size == 0 then q.published else q.published + 1, q.prompt, size);
  }

  /** A request that came back through its retained prefix has pages for its prompt, all of it computed and
      published as far as it is complete.  Unless it gets a new page, its next slot is not the place of the
      newest position exactly if its output had reached another page, and lies in a published page exactly if
      the prompt is aligned; and then it is not the right place. */
  lemma SlotAfterReturnIff(q: Sequence, size: nat)
    requires size > 1 && 0 < q.prompt < |q.tokens| && q.computed == q.prompt && Caught(q, size)
    requires |q.table| == PagesFor(q.prompt, size)
    ensures Resumes(q, size)
    ensures Short(q, size) <==> PagesFor(q.prompt, size) < PagesFor(|q.tokens| - 1, size)
    ensures !Crosses(q, size) ==> (SlotPosition(q, size) != |q.tokens| - 1 <==> Short(q, size))
    ensures !HasOpenTail(q) <==> q.prompt % size == 0
    ensures !Crosses(q, size) && !HasOpenTail(q) ==> Short(q, size)
  {
    hide PagesFor, SlotPosition, Crosses;
    var n := |q.tokens|;
    PagesMonotone(q.prompt, n - 1, size);
    PagesCover(q.prompt, size);
    TailAfterReturn(q, size);
    if !Crosses(q, size) {
      assert PagesFor(n, size) == PagesFor(n - 1, size) by { StaysOnPage(q, size); }
      assert SlotPosition(q, size) == n - 1 <==> |q.table| == PagesFor(n, size) by { SlotIsRightIff(q, size); }
      assert n <= Start(PagesFor(n, size), size) by { PagesCover(n, size); }
      if !HasOpenTail(q) { StartMonotone(|q.table|, q.published, size); }
    }
  }

  lemma StaysOnPage(q: Sequence, size: nat)
    requires size > 1 && q.tokens != [] && !Crosses(q, size)
    ensures PagesFor(|q.tokens|, size) == PagesFor(|q.tokens| - 1, size)
  {
    NextPage(|q.tokens|, size);
  }

  // ----- the steps of a request

  /** Not all rows but the newest are computed. */
  predicate MissesRows(q: Sequence) { q.computed + 1 < |q.tokens| }

  /** Too few pages, no new one due, and the last one is published: the next row may stray into it. */
  ghost predicate StrayPossible(s: State, id: nat)
    requires Inv(s) && id in s.seqs
  {
    var q := s.seqs[id];
    && s.size > 0 && q.tokens != [] && Short(q, s.size) && !Crosses(q, s.size) && q.table != [] && !HasOpenTail(q)
    && (OwnTail(s, id) || (FreePages(s) == {} && !(LastPage(s, id); OthersHoldTail(s, id))))
  }

  /** The last page is the request's own, too. */
  ghost predicate StrayCertain(s: State, id: nat)
    requires Inv(s) && id in s.seqs
  {
    StrayPossible(s, id) && OwnTail(s, id)
  }

  /** What the next token needs does not change how many pages are missing. */
  lemma StepPages(q: Sequence, size: nat)
    requires size > 1 && 0 < q.prompt < |q.tokens| && q.table != []
    ensures |q.table| + (if Crosses(q, size) then 1 else 0) < PagesFor(|q.tokens|, size) <==> Short(q, size)
    ensures |q.table| <= PagesFor(|q.tokens| - 1, size) ==>
              |q.table| + (if Crosses(q, size) then 1 else 0) <= PagesFor(|q.tokens|, size)
    ensures Short(q, size) ==> Start(|q.table|, size) + 1 < |q.tokens|
  {
    NextPage(|q.tokens|, size);
    PagesCover(|q.tokens| - 1, size);
    if Short(q, size) { StartMonotone(|q.table|, PagesFor(|q.tokens| - 1, size) - 1, size); }
  }

  /** Writing to the slot leaves a request trailing. */
  lemma SlotTrails(s: State, id: nat, row: Key)
    requires Inv(s) && id in s.seqs && Trails(s.seqs[id], s.size) && HasOpenTail(s.seqs[id])
    ensures s.seqs[id].table[|s.seqs[id].table| - 1] < |s.blocks|
    ensures s.size > 0 && |s.blocks[s.seqs[id].table[|s.seqs[id].table| - 1]].rows| == s.size
    ensures var q0, q := s.seqs[id], WriteSlot(s, id, row).seqs[id];
            && q == q0.(computed := Min(q0.computed, SlotPosition(q0, s.size))) && Trails(q, s.size)
  {
    hide Inv;
    LastPage(s, id);
    var q0 := s.seqs[id];
    StartMonotone(q0.published, |q0.table| - 1, s.size);
  }

  /** The plan leaves a request trailing, and with enough pages, caught up. */
  lemma PlannedPages(s: State, t: State, id: nat)
    requires Good(s) && s.size > 1 && id in s.seqs && id in t.seqs && t.size == s.size && Resumes(s.seqs[id], s.size)
    requires var q0, q := s.seqs[id], t.seqs[id];
             && q == q0.(table := q.table, published := q.published)
             && |q.table| == |q0.table| + (if Crosses(q0, s.size) then 1 else 0)
             && (q.published == q0.published ||
                 (!Crosses(q0, s.size) && !HasOpenTail(q0) && q.published == |q.table| - 1))
    ensures Trails(t.seqs[id], s.size)
    ensures if Short(s.seqs[id], s.size) then |t.seqs[id].table| < PagesFor(|t.seqs[id].tokens|, s.size)
            else |t.seqs[id].table| == PagesFor(|t.seqs[id].tokens|, s.size) && Caught(t.seqs[id], s.size)
  {
    hide Inv, SpansOk, BoundaryOf, PagesFor;
    var q0, q := s.seqs[id], t.seqs[id];
    StepPages(q0, s.size);
    if q.published != q0.published {
      TailIsFull(s, id);
      if !Short(q0, s.size) { TailIsOpen(s, id); }
    }
  }

  /** A request with too few pages stays one, and misses rows. */
  lemma ShortGoesOn(q0: Sequence, q: Sequence, size: nat)
    requires size > 1 && Resumes(q0, size) && Short(q0, size) && Trails(q, size) && q.prompt == q0.prompt
    requires |q.table| == |q0.table| + (if Crosses(q0, size) then 1 else 0) && q.computed <= q0.computed
    requires |q.tokens| == |q0.tokens| + 1 || (q.tokens == q0.tokens && !Crosses(q0, size))
    requires q0.computed <= Start(|q0.table|, size)
    ensures Resumes(q, size) && Short(q, size) && MissesRows(q) && MissesRows(q0)
  {
    StepPages(q0, size);
  }

  /** A request with enough pages stays one. */
  lemma WholeGoesOn(q0: Sequence, q: Sequence, size: nat)
    requires size > 1 && Resumes(q0, size) && Caught(q, size) && q.prompt == q0.prompt && q.computed < |q.tokens|
    requires |q.tokens| == |q0.tokens| + 1 && |q.table| == PagesFor(|q0.tokens|, size)
    ensures Resumes(q, size) && !Short(q, size)
  {
    PagesCover(|q0.tokens|, size);
  }

  lemma ShortStays(q: Sequence, size: nat)
    requires size > 1 && Resumes(q, size) && Short(q, size) && q.computed <= Start(|q.table|, size)
    ensures MissesRows(q)
  {
    StepPages(q, size);
  }

  lemma SeqFits(s: State, id: nat)
    requires Inv(s) && id in s.seqs
    ensures s.seqs[id].computed <= Start(|s.seqs[id].table|, s.size)
  {
    SeqIsOk(s, id);
  }

  /** Whether the last page is still published after the plan. */
  lemma StrayAfterPlan(s: State, t: State, id: nat)
    requires Good(s) && s.size > 1 && id in s.seqs && id in t.seqs && t.size == s.size
    requires Resumes(s.seqs[id], s.size) && Short(s.seqs[id], s.size)
    requires var q0, q := s.seqs[id], t.seqs[id];
             && q == q0.(table := q.table, published := q.published)
             && |q.table| == |q0.table| + (if Crosses(q0, s.size) then 1 else 0)
             && (q.published == q0.published ||
                 (!Crosses(q0, s.size) && !HasOpenTail(q0) && q.published == |q.table| - 1))
    requires !Crosses(s.seqs[id], s.size) ==>
               && (OwnTail(s, id) ==> t.seqs[id] == s.seqs[id])
               && (!OwnTail(s, id) && (FreePages(s) != {} || (LastPage(s, id); OthersHoldTail(s, id))) ==>
                   HasOpenTail(t.seqs[id]))
    ensures !HasOpenTail(t.seqs[id]) ==> StrayPossible(s, id)
    ensures StrayCertain(s, id) ==> !HasOpenTail(t.seqs[id])
  {
    hide Inv, SpansOk, BoundaryOf, PagesFor, FreePages, OthersHoldTail, OwnTail;
    LastPage(s, id);
    SeqIsOk(s, id);
    TablePublished(s, id);
  }

  lemma TablePublished(s: State, id: nat)
    requires Inv(s) && id in s.seqs
    ensures s.seqs[id].published <= |s.seqs[id].table|
  {
    SeqIsOk(s, id);
  }

  lemma ResumesTrails(q: Sequence, size: nat)
    requires size > 0 && Resumes(q, size)
    ensures Trails(q, size) && q.table != [] && q.tokens != []
  {
  }

  /** A request that misses no rows has enough pages, and gets what the scheduler's test promises. */
  lemma NothingStops(s: State, id: nat)
    requires Good(s) && s.size > 1 && id in s.seqs && Resumes(s.seqs[id], s.size) && !MissesRows(s.seqs[id])
    ensures !Short(s.seqs[id], s.size) && (CanAppend(s, id) ==> CanPlan(s, id))
  {
    hide Inv, SpansOk, BoundaryOf, PagesFor, CanAppend, CanPlan;
    SeqFits(s, id);
    if Short(s.seqs[id], s.size) { ShortStays(s.seqs[id], s.size); }
    if CanAppend(s, id) { CanAppendSuffices(s, id); }
  }
}
