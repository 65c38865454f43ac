/** What becomes of a request that was sent back to be computed again (prism_infer/engine/scheduler.py,
    recompute preemption): it keeps the tokens it has produced, but its prefill stops at the end of its
    prompt. */
module KvRecompute {
  import opened Paging
  import opened KvState
  import opened KvSteps
  import opened KvPublishSteps
  import opened KvEntrySteps
  import opened KvSwap
  import opened KvRuns
  import opened KvCapacity
  import opened KvAdmission
  import opened KvDecode
  import opened KvSlots
  import opened KvManager
  import opened KvBudget

  /** How the next attempt to admit a waiting request ends.  NothingLeft and StoreRaises are exceptions of the
      source: `scheduler admitted a fully cached prompt` and `admission requires completed prefill`. */
  datatype Readmission = NotNow | NothingLeft | StoreRaises | Resumed

  /** It depends on room, on the batch, on the pages that the index still leads to, and on whether a prefix is
      retained.  The other exception of admission is never raised. */
  function ReadmissionOf(s: State, id: nat, rows: seq<nat>, b: Batch, l: Limits): Readmission
    requires s.size > 0 && id in s.seqs && |rows| == |s.seqs[id].spans| && Open(b, l)
  {
    var q := s.seqs[id];
    match AdmissionOf(s, id, 0, rows, b, l)
    case Deferred => NotNow
    case NothingLeft => Readmission.NothingLeft
    case BeyondLimits => Readmission.NothingLeft
    case Admitted =>
      if OwnKey(q) !in s.entries && q.boundary > 0 && |q.tokens| > q.prompt then StoreRaises else Resumed
  }

  /** When an admissible request is refused all the same. */
  predicate Refused(s: State, id: nat, b: Batch, l: Limits)
    requires s.size > 0 && id in s.seqs && Open(b, l)
  {
    var q := s.seqs[id];
    if OwnKey(q) in s.entries then !l.chunked && Free(b, l) < q.prompt - q.boundary
    else HitsPastPrompt(s.index, q, s.size)
  }

  lemma ReadmissionIs(s: State, id: nat, rows: seq<nat>, b: Batch, l: Limits)
    requires Good(s) && id in s.seqs && |rows| == |s.seqs[id].spans| && Open(b, l)
    ensures AdmissionOf(s, id, 0, rows, b, l) != BeyondLimits
    ensures var q, o := s.seqs[id], ReadmissionOf(s, id, rows, b, l);
            && (o == Readmission.NothingLeft <==> o != NotNow && Refused(s, id, b, l))
            && (o == StoreRaises <==>
                o != NotNow && !Refused(s, id, b, l)
                && OwnKey(q) !in s.entries && q.boundary > 0 && |q.tokens| > q.prompt)
  {
    hide Good, CanAllocate, HitsPastPrompt, AdmissionOf;
    GoodShapeOf(s, id);
    if OwnKey(s.seqs[id]) in s.entries { PrefixAdmission(s, id, 0, rows, b, l); }
    else { WalkAdmission(s, id, 0, rows, b, l); }
  }

  /** Prefill of the rest of the prompt, retention of its prefix, and the first sampled token. */
  method FinishPrompt(m: BlockManager, id: nat, hit: bool, token: Token) returns (raised: bool)
    requires m.Valid() && id in m.kv.seqs && id !in m.cpu && m.kv.seqs[id].computed <= m.kv.seqs[id].prompt
    requires |m.kv.seqs[id].table| >= PagesFor(m.kv.seqs[id].prompt, m.kv.size) && Caught(m.kv.seqs[id], m.kv.size)
    modifies m`kv
    ensures m.Valid() && OthersAsBefore(old(m.kv), m.kv, id)
    ensures raised <==>
            !hit && old(m.kv).seqs[id].boundary > 0 && |old(m.kv).seqs[id].tokens| != old(m.kv).seqs[id].prompt
    ensures !raised ==>
              var q0, q := old(m.kv).seqs[id], m.kv.seqs[id];
              && q.tokens == q0.tokens + [token] && q.computed == q.prompt == q0.prompt && q.table == q0.table
              && Caught(q, m.kv.size)
  {
    hide Good, Parked, Slots, OwnKey, PagesFor;
    GoodShape(m.kv, id);
    m.Prefill(id, m.kv.seqs[id].prompt);
    var stored := m.StorePrefix(id, hit);
    raised := stored == Raised;
    if !raised {
      m.AppendSampled(id, token);
    }
  }

  /** A request that has its prompt and goes on to decode. */
  lemma ResumedDecodes(s: State, id: nat, n: nat, retained: bool)
    requires s.size > 0 && id in s.seqs && Caught(s.seqs[id], s.size) && 0 < s.seqs[id].prompt
    requires s.seqs[id].computed == s.seqs[id].prompt <= n && |s.seqs[id].tokens| == n + 1
    requires |s.seqs[id].table| == PagesFor(if retained then s.seqs[id].prompt else n, s.size)
    ensures Resumes(s.seqs[id], s.size)
    ensures Short(s.seqs[id], s.size) <==> retained && PagesFor(s.seqs[id].prompt, s.size) < PagesFor(n, s.size)
    ensures DecodeReady(s, id) <==> s.seqs[id].prompt == n
    ensures MissesRows(s.seqs[id]) <==> s.seqs[id].prompt < n
  {
    hide PagesFor;
    PagesMonotone(s.seqs[id].prompt, n, s.size);
    PagesCover(s.seqs[id].prompt, s.size);
    PagesCover(n, s.size);
  }

  /** Admission, prefill of the prompt, retention of its prefix and the first sampled token, for a request
      that is new or was sent back.  It resumes with all rows that decoding needs exactly if it had not
      produced a token before; otherwise the rows of all tokens it had produced are missing.  It has too few
      pages exactly if its prefix was retained and its output had reached another page.  When nothing is left of
      its prompt, the rows that were reused go on to count as computed, although they were given up. */
  method Readmit(m: BlockManager, id: nat, keepClone: bool, rows: seq<nat>, b: Batch, l: Limits, token: Token)
    returns (o: Readmission, counted: nat)
    requires m.Valid() && id in m.kv.seqs && id !in m.cpu && Waits(m.kv.seqs[id])
    requires |rows| == |m.kv.seqs[id].spans| && Open(b, l)
    modifies m`kv
    ensures m.Valid() && OthersAsBefore(old(m.kv), m.kv, id)
    ensures o == ReadmissionOf(old(m.kv), id, rows, b, l)
    ensures o == NotNow ==> m.kv == old(m.kv)
    ensures o == Readmission.NothingLeft ==>
              m.kv.seqs[id] == old(m.kv).seqs[id] && counted == ReusedPrefix(old(m.kv), id)
    ensures o == Resumed ==>
              var q0, q, retained := old(m.kv).seqs[id], m.kv.seqs[id], OwnKey(old(m.kv).seqs[id]) in old(m.kv).entries;
              && q.tokens == q0.tokens + [token] && q.computed == q.prompt == q0.prompt && Resumes(q, m.kv.size)
              && (DecodeReady(m.kv, id) <==> |q0.tokens| == q0.prompt)
              && (Short(q, m.kv.size) <==>
                  retained && PagesFor(q0.prompt, m.kv.size) < PagesFor(|q0.tokens|, m.kv.size))
              && Caught(q, m.kv.size)
              && |q.table| == PagesFor(if retained then q0.prompt else |q0.tokens|, m.kv.size)
  {
    hide Inv, SpansOk, BoundaryOf, Parked, Slots, Whole, HitsPastPrompt, CanAllocate, ReusedPrefix, DecodeReady, Caught,
      PagesFor, AdmissionOf, Resumes, Short;
    ghost var s := m.kv;
    ReadmissionIs(s, id, rows, b, l);
    PagesMonotone(m.kv.seqs[id].prompt, |m.kv.seqs[id].tokens|, m.kv.size);
    GoodShapeOf(s, id);
    counted := ReusedPrefix(m.kv, id);
    AdmittedIsUnfinished(s, id, rows, b, l);
    var hit := OwnKey(m.kv.seqs[id]) in m.kv.entries;
    var a := TryAdmit(m, id, keepClone, 0, rows, b, l);
    if a == Deferred { return NotNow, counted; }
    if a != Admitted { return Readmission.NothingLeft, counted; }
    var raised := FinishPrompt(m, id, hit, token);
    if raised { return StoreRaises, counted; }
    ResumedDecodes(m.kv, id, |s.seqs[id].tokens|, hit);
    o := Resumed;
  }

  /** A request that decodes is sent back and admitted again at once.  It never gets all its rows back: the
      scheduler raises, or storing the prefix does, or the rows of all tokens it had produced are missing. */
  method Recompute(m: BlockManager, id: nat, keepClone: bool, rows: seq<nat>, b: Batch, l: Limits, token: Token)
    returns (o: Readmission)
    requires m.Valid() && id in m.kv.seqs && id !in m.cpu && m.kv.seqs[id].prompt < |m.kv.seqs[id].tokens|
    requires |rows| == |m.kv.seqs[id].spans| && Open(b, l)
    modifies m`kv
    ensures m.Valid() && OthersAsBefore(old(m.kv), m.kv, id)
    ensures o != NotNow ==>
              var q, retained := old(m.kv).seqs[id], OwnKey(old(m.kv).seqs[id]) in old(m.kv).entries;
              var refused := Refused(old(m.kv), id, b, l);
              && (o == Readmission.NothingLeft <==> refused)
              && (o == StoreRaises <==> !refused && !retained && q.boundary > 0)
              && (o == Resumed <==> !refused && (retained || q.boundary == 0))
    ensures o == Resumed ==>
              var q0, q := old(m.kv).seqs[id], m.kv.seqs[id];
              && q.tokens == q0.tokens + [token] && q.computed == q0.prompt < |q0.tokens| == |q.tokens| - 1
              && Resumes(q, m.kv.size) && MissesRows(q)
              && (Short(q, m.kv.size) <==>
                  OwnKey(q0) in old(m.kv).entries
                  && PagesFor(q0.prompt, m.kv.size) < PagesFor(|q0.tokens|, m.kv.size))
  {
    hide Inv, SpansOk, BoundaryOf, Parked, Slots, Whole, HitsPastPrompt, CanAllocate, PagesFor, ReusedPrefix, Resumes,
      Short, ReadmissionOf, Caught;
    m.Release(id);
    ghost var released := m.kv;
    SameWalk(old(m.kv), released, id);
    ReadmissionIs(released, id, rows, b, l);
    ghost var counted: nat;
    o, counted := Readmit(m, id, keepClone, rows, b, l, token);
  }

  lemma SameWalk(s: State, t: State, id: nat)
    requires s.size > 0 && OthersKept(s, t, id) && t.index == s.index
    ensures OwnKey(t.seqs[id]) == OwnKey(s.seqs[id])
    ensures HitsPastPrompt(t.index, t.seqs[id], t.size) <==> HitsPastPrompt(s.index, s.seqs[id], s.size)
  {
  }

  /** The last token of the page that the newest of n tokens is on. */
  function PageEnd(n: nat, size: nat): nat
    requires size > 0
  {
    Start(PagesFor(n, size), size)
  }

  lemma PageEndStays(n: nat, size: nat)
    requires size > 1 && n > 0
    ensures n <= PageEnd(n, size)
    ensures n % size != 0 ==> PageEnd(n + 1, size) == PageEnd(n, size) && n < PageEnd(n, size)
  {
    PagesCover(n, size);
    if n % size != 0 {
      assert (n + 1) % size != 1 by { NotNext(n, size); }
      NextPage(n + 1, size);
      PagesCover(n + 1, size);
    }
  }

  lemma NotNext(n: nat, size: nat)
    requires size > 1 && n % size != 0
    ensures (n + 1) % size != 1
  {
    PageOfRow(n, size);
    PageOfRow(n + 1, size);
    if (n + 1) % size == 1 { PageIsUnique(n / size, (n + 1) / size, n, size); }
  }

  /** What some steps made of request q0: it misses rows as before, only for that reason it was ended, and then it
      is still on its page. */
  ghost predicate OnItsPage(q0: Sequence, q: Sequence, size: nat, o: Decoded, harm: Harm) {
    && size > 0 && q0.tokens != [] && q.tokens != []
    && (harm == NoHarm && o == Appended ==>
        && (Short(q, size) <==> Short(q0, size)) && (MissesRows(q) <==> MissesRows(q0))
        && (MissesRows(q) ==> q.computed <= q0.computed)
        && (MissesRows(q0) ==> PageEnd(|q.tokens|, size) == PageEnd(|q0.tokens|, size)))
    && (harm != NoHarm || o != Appended ==> MissesRows(q0))
    && (o == PublishRaises || harm == Stray ==> Short(q0, size)) && (harm == Gap ==> !Short(q0, size))
    && (MissesRows(q0) ==> |q.tokens| <= PageEnd(|q0.tokens|, size) + (if harm == Gap then 1 else 0))
  }

  lemma StepOnPage(q0: Sequence, q: Sequence, r: Sequence, size: nat, o: Decoded, harm: Harm)
    requires size > 1 && OnItsPage(q0, q, size, Appended, NoHarm)
    requires |r.tokens| == |q.tokens| + (if o == Appended then 1 else 0)
    requires o == PublishRaises || harm == Stray ==> Short(q, size)
    requires o == PlanRaises ==> MissesRows(q) && harm == NoHarm
    requires o == PublishRaises ==> CompletesPage(q, size)
    requires harm == Gap ==> !Short(q, size) && CompletesPage(q, size)
    requires CompletesPage(q, size) && MissesRows(q) ==> o == PlanRaises || o == PublishRaises || harm == Gap
    requires Short(q, size) ==> MissesRows(q)
    requires harm == Gap ==> MissesRows(q)
    requires o == Appended && harm == NoHarm ==>
               && (Short(r, size) <==> Short(q, size)) && (MissesRows(r) <==> MissesRows(q))
               && (MissesRows(r) ==> r.computed <= q.computed)
    ensures OnItsPage(q0, r, size, o, harm)
  {
    hide PageEnd, Short, MissesRows;
    PageEndStays(|q.tokens|, size);
  }

  lemma StartsOnPage(q: Sequence, size: nat)
    requires size > 1 && q.tokens != []
    ensures OnItsPage(q, q, size, Appended, NoHarm)
  {
    PageEndStays(|q.tokens|, size);
  }

  /** Any number of decode steps, until the scheduler's test, an exception or harm to another request ends them.
      A request that misses no rows is ended by the test only.  One that does never gets them, and never gets
      past its page: at its end the step publishes a page with a gap or asks for a page that is not there. */
  method DecodeOn(m: BlockManager, id: nat, more: seq<Token>) returns (done: nat, o: Decoded, harm: Harm)
    requires m.Valid() && m.kv.size > 1 && id in m.kv.seqs && id !in m.cpu && Resumes(m.kv.seqs[id], m.kv.size)
    modifies m`kv
    ensures OthersAsBefore(old(m.kv), m.kv, id) && id in m.kv.seqs
    ensures done <= |more| && m.kv.seqs[id].tokens == old(m.kv).seqs[id].tokens + more[..done]
    ensures harm == NoHarm ==> m.Valid() && Resumes(m.kv.seqs[id], m.kv.size)
    ensures harm == NoHarm && o == Appended && done < |more| ==> !CanAppend(m.kv, id)
    ensures OnItsPage(old(m.kv).seqs[id], m.kv.seqs[id], m.kv.size, o, harm)
    ensures harm == Gap ==> PublishedUnread(m.kv, id)
    ensures harm == Stray ==> HashLies(m.kv, id)
  {
    hide Inv, Shape, Whole, Parked, Slots, CanAppend, CanPlan, StrayPossible, StrayCertain, Resumes, MissesRows, Short,
      PageEnd, PublishedUnread, HashLies, OnItsPage, CompletesPage;
    done, o, harm := 0, Appended, NoHarm;
    ResumesTrails(m.kv.seqs[id], m.kv.size);
    StartsOnPage(m.kv.seqs[id], m.kv.size);
    assert more[..0] == [];
    while done < |more| && o == Appended && harm == NoHarm && CanAppend(m.kv, id)
      invariant OthersAsBefore(old(m.kv), m.kv, id) && id in m.kv.seqs && m.kv.size > 1
      invariant done <= |more| && m.kv.seqs[id].tokens == old(m.kv).seqs[id].tokens + more[..done]
      invariant harm == NoHarm ==> m.Valid() && Resumes(m.kv.seqs[id], m.kv.size)
      invariant OnItsPage(old(m.kv).seqs[id], m.kv.seqs[id], m.kv.size, o, harm)
      invariant harm == Gap ==> PublishedUnread(m.kv, id)
      invariant harm == Stray ==> HashLies(m.kv, id)
      decreases |more| - done, o == Appended && harm == NoHarm
    {
      ghost var was := m.kv;
      o, harm := OneMore(m, id, more[done]);
      StepOnPage(old(m.kv).seqs[id], was.seqs[id], m.kv.seqs[id], m.kv.size, o, harm);
      if o == Appended {
        assert more[..done + 1] == more[..done] + [more[done]];
        done := done + 1;
      }
    }
  }

  /** One step that the scheduler's test allows. */
  method OneMore(m: BlockManager, id: nat, token: Token) returns (o: Decoded, harm: Harm)
    requires m.Valid() && m.kv.size > 1 && id in m.kv.seqs && id !in m.cpu && Resumes(m.kv.seqs[id], m.kv.size)
    requires CanAppend(m.kv, id)
    modifies m`kv
    ensures OthersAsBefore(old(m.kv), m.kv, id) && id in m.kv.seqs
    ensures m.kv.seqs[id].tokens == old(m.kv).seqs[id].tokens + (if o == Appended then [token] else [])
    ensures harm == NoHarm ==> m.Valid() && Resumes(m.kv.seqs[id], m.kv.size)
    ensures harm == Gap ==> PublishedUnread(m.kv, id)
    ensures harm == Stray ==> HashLies(m.kv, id)
    ensures var q, r, size := old(m.kv).seqs[id], m.kv.seqs[id], m.kv.size;
            && q.tokens != [] && r.tokens != []
            && (o == PublishRaises || harm == Stray ==> Short(q, size))
            && (o == PlanRaises ==> MissesRows(q) && harm == NoHarm)
            && (o == PublishRaises ==> CompletesPage(q, size))
            && (harm == Gap ==> !Short(q, size) && MissesRows(q) && CompletesPage(q, size))
            && (CompletesPage(q, size) && MissesRows(q) ==> o == PlanRaises || o == PublishRaises || harm == Gap)
            && (Short(q, size) ==> MissesRows(q))
            && (o == Appended && harm == NoHarm ==>
                && (Short(r, size) <==> Short(q, size)) && (MissesRows(r) <==> MissesRows(q))
                && (MissesRows(r) ==> r.computed <= q.computed))
  {
    hide Inv, Shape, Whole, Parked, Slots, CanAppend, CanPlan, Resumes, MissesRows, Short, PublishedUnread, HashLies,
      CompletesPage;
    ResumesTrails(m.kv.seqs[id], m.kv.size);
    SeqFits(m.kv, id);
    if Short(m.kv.seqs[id], m.kv.size) { ShortStays(m.kv.seqs[id], m.kv.size); }
    if !MissesRows(m.kv.seqs[id]) { NothingStops(m.kv, id); }
    o, harm := m.DecodeStep(id, token);
  }

  // ----- instances

  /** Eight requests and 512 tokens in a batch, prompts in one piece. */
  function SomeLimits(): Limits { Limits(512, 8, 4096, false, 512) }

  function EmptyPage(): Block { Block(0, [], {}, [[], []]) }

  /** A cache of three pages of two rows; the first is published under [7, 8]. */
  function Example(q: Sequence): State {
    State(2, [Block(0, [7, 8], {}, [[7], [7, 8]]), EmptyPage(), EmptyPage()], map[[7, 8] := 0], map[5 := q], map[])
  }

  lemma ExampleOk(q: Sequence)
    requires Waits(q) && q.dirty == q.dirtyEnd == 0 && Shape(q) && 2 < |q.tokens| <= 4
    ensures Good(Example(q)) && CanAllocate(Example(q), 5) && OwnKey(q) !in Example(q).entries
  {
    var s := Example(q);
    assert [7, 8][..1] == [7] && [7, 8][..2] == [7, 8];
    assert SeqOk(s, 5);
    assert FreePages(s) == {0, 1, 2};
  }

  lemma ExampleIsAdmissible(q: Sequence, rows: seq<nat>)
    requires Waits(q) && q.dirty == q.dirtyEnd == 0 && Shape(q) && 2 < |q.tokens| <= 4 && |rows| == |q.spans|
    requires CachedPrefix(Example(q), 5) < q.prompt
    ensures Good(Example(q)) && OwnKey(q) !in Example(q).entries
    ensures ReadmissionOf(Example(q), 5, rows, Batch(0, 0, 0), SomeLimits()) != NotNow
  {
    ExampleOk(q);
    hide Good, CanAllocate, CachedPrefix, ReusedPrefix;
  }

  /** The prompt [7, 8] is a complete page; after one token of output the request was sent back: its prompt is
      found in the cache as a whole, and the scheduler raises. */
  lemma NothingLeftExample()
    ensures var q := Sequence([7, 8, 9], 2, [], 0, 0, 0, 0, 0, []);
            && Good(Example(q))
            && ReadmissionOf(Example(q), 5, [], Batch(0, 0, 0), SomeLimits()) == Readmission.NothingLeft
  {
    var q := Sequence([7, 8, 9], 2, [], 0, 0, 0, 0, 0, []);
    assert q.tokens[..2] == [7, 8] && Start(1, 2) == 2;
    assert Probeable(q, 2) == 0 && Walkable(q, 2) == 1;
    assert Indexed(Example(q).index, q.tokens, 2, 0);
    hide Good, CanAllocate, ReadmissionOf, Indexed;
    ExampleIsAdmissible(q, []);
    ReadmissionIs(Example(q), 5, [], Batch(0, 0, 0), SomeLimits());
  }

  lemma SecondPageMisses(q: Sequence)
    requires q.tokens == [7, 8, 9, 10] && q.prompt == 3
    ensures !HitsPastPrompt(Example(q).index, q, 2)
  {
    assert Start(2, 2) == 4 && |q.tokens[..4]| == 4 && |[7, 8]| == 2;
    assert !Indexed(Example(q).index, q.tokens, 2, 1);
    assert Probeable(q, 2) == 1;
  }

  lemma ProbeStaysShort(q: Sequence)
    requires q.prompt == 3
    ensures CachedPrefix(Example(q), 5) < 3
  {
    assert Probeable(q, 2) == 1 && Start(1, 2) == 2;
    StartMonotone(Chain(Example(q).index, q.tokens, 2, 0, 1), 1, 2);
  }

  /** The prompt [7, 8, 9] and one token of output: the request resumes, and the row of its output, at
      position 3, is missing. */
  lemma MissingRowExample()
    ensures var q := Sequence([7, 8, 9, 10], 3, [], 0, 0, 0, 0, 0, []);
            Good(Example(q)) && ReadmissionOf(Example(q), 5, [], Batch(0, 0, 0), SomeLimits()) == Resumed
            && q.prompt < |q.tokens|
  {
    var q := Sequence([7, 8, 9, 10], 3, [], 0, 0, 0, 0, 0, []);
    hide Good, CanAllocate, HitsPastPrompt, Example, ReadmissionOf, CachedPrefix;
    SecondPageMisses(q);
    ProbeStaysShort(q);
    ExampleIsAdmissible(q, []);
    ExampleSize(q);
    ReadmissionIs(Example(q), 5, [], Batch(0, 0, 0), SomeLimits());
  }

  lemma ExampleSize(q: Sequence)
    ensures Example(q).size == 2 && 5 in Example(q).seqs && Example(q).seqs[5] == q
  {
  }

  /** Likewise with an image at the first position: storing the prefix raises. */
  lemma StoreRaisesExample()
    ensures var q := Sequence([7, 8, 9, 10], 3, [(0, 1)], 1, 0, 0, 0, 0, []);
            Good(Example(q)) && ReadmissionOf(Example(q), 5, [4], Batch(0, 0, 0), SomeLimits()) == StoreRaises
  {
    var q := Sequence([7, 8, 9, 10], 3, [(0, 1)], 1, 0, 0, 0, 0, []);
    hide Good, CanAllocate, HitsPastPrompt, Example, ReadmissionOf, CachedPrefix;
    SecondPageMisses(q);
    ProbeStaysShort(q);
    ExampleIsAdmissible(q, [4]);
    ExampleSize(q);
    ReadmissionIs(Example(q), 5, [4], Batch(0, 0, 0), SomeLimits());
  }

  // ----- instances of a request that came back through its retained prefix

  /** The prefix [1, 2, 3] of a request for [1, 2, 3, 5] is retained.  A request for [1, 2, 3, 4] with one token of
      output came back through it: its prompt, computed again, fills two pages, and it has just sampled another
      token.  This state is shown to be in order, not to be reached by a certain run. */
  function TooFewPages(): State {
    var mine := Sequence([1, 2, 3, 4, 9, 8], 4, [(0, 3)], 3, 4, 2, 0, 0, [0, 2]);
    var own: Key := [1, 2, 3];
    State(2,
          [Block(2, [1, 2], {OfSeq(5, 0), OfEntry(own, 0)}, [[1], [1, 2]]),
           Block(1, [1, 2, 3, 5], {OfEntry(own, 1)}, [[1, 2, 3], [1, 2, 3, 5]]),
           Block(1, [1, 2, 3, 4], {OfSeq(5, 1)}, [[1, 2, 3], [1, 2, 3, 4]]),
           Block(0, [], {}, [[], []])],
          map[[1, 2] := 0, [1, 2, 3, 5] := 1, [1, 2, 3, 4] := 2], map[5 := mine], map[own := Entry(1, 1, [0, 1], {})])
  }

  lemma Prefixes(t: Key)
    requires |t| >= 4 && t[..4] == [1, 2, 3, 4]
    ensures t[..1] == [1] && t[..2] == [1, 2] && t[..3] == [1, 2, 3]
  {
    assert t[..1] == t[..4][..1] && t[..2] == t[..4][..2] && t[..3] == t[..4][..3];
  }

  /** A published page of two rows. */
  lemma PublishedPairOk(b: Block)
    requires b.refs == |b.owners| && |b.hash| >= 2 && b.rows == [b.hash[..|b.hash| - 1], b.hash]
    ensures BlockOk(b, 2)
  {
    assert b.hash[..|b.hash|] == b.hash;
  }

  lemma TooFewBlocksOk()
    ensures BlocksOk(TooFewPages())
  {
    var s := TooFewPages();
    Prefixes([1, 2, 3, 4]);
    assert [1, 2][..1] == [1] && [1, 2, 3, 5][..3] == [1, 2, 3];
    PublishedPairOk(s.blocks[0]);
    PublishedPairOk(s.blocks[1]);
    PublishedPairOk(s.blocks[2]);
    assert BlockOk(s.blocks[3], 2);
  }

  lemma TooFewSeqOk()
    ensures SeqOk(TooFewPages(), 5)
  {
    var s := TooFewPages();
    assert s.seqs[5].tokens[..4] == [1, 2, 3, 4];
    Prefixes(s.seqs[5].tokens);
    assert Start(1, 2) == 2 && Start(2, 2) == 4;
    assert PageOk(s.blocks[0], 0, 5, s.seqs[5], s.entries, 2) && PageOk(s.blocks[2], 1, 5, s.seqs[5], s.entries, 2);
  }

  lemma TooFewEntryOk()
    ensures EntryOk(TooFewPages(), [1, 2, 3])
  {
    var own: Key := [1, 2, 3];
    assert own[..1] == [1] && own[..2] == [1, 2] && own[..3] == own;
    assert Start(1, 2) == 2 && Start(2, 2) == 4;
  }

  lemma TooFewIsGood()
    ensures Good(TooFewPages())
  {
    TooFewSeqOk();
    TooFewEntryOk();
    TooFewBlocksOk();
    hide SeqOk, EntryOk, BlocksOk;
  }

  lemma TooFewFacts()
    ensures var s, q := TooFewPages(), TooFewPages().seqs[5];
            && Resumes(q, 2) && Short(q, 2) && SlotPosition(q, 2) == 3 && !Crosses(q, 2) && !HasOpenTail(q)
            && CanAppend(s, 5) && OwnTail(s, 5)
  {
    assert Start(1, 2) == 2 && Start(2, 2) == 4 && Start(3, 2) == 6;
    assert PagesFor(5, 2) == 3 && PagesFor(6, 2) == 3 && SlotRow(6, 2) == 1;
  }

  /** The scheduler's test allows the step, and the plan changes nothing.  The row of position 5 goes to that of
      position 3, in the page that the index gives for [1, 2, 3, 4]: whatever the row is, that page then lies. */
  lemma StrayExample()
    ensures var s, q := TooFewPages(), TooFewPages().seqs[5];
            && Good(s) && CanAppend(s, 5) && Resumes(q, 2) && Short(q, 2) && StrayCertain(s, 5)
            && SlotPosition(q, 2) == 3 && |q.tokens| == 6 && q.table[1] == s.index[[1, 2, 3, 4]]
            && (LastPage(s, 5);
                forall row: Key :: |row| == 6 ==> !Inv(WriteSlot(s, 5, row)) && HashLies(WriteSlot(s, 5, row), 5))
  {
    TooFewIsGood();
    TooFewFacts();
    var s := TooFewPages();
    hide Inv, Shape, Whole, HashLies, Resumes, Short, SlotPosition, CanAppend, OwnTail, HasOpenTail, Crosses;
    ResumesTrails(s.seqs[5], 2);
    LastPage(s, 5);
    forall row: Key | |row| == 6 ensures !Inv(WriteSlot(s, 5, row)) && HashLies(WriteSlot(s, 5, row), 5) {
      SlotKeepsInvIff(s, 5, row);
    }
  }

  /** The same, but another request shares the last page.  No page is free but one that only the prefix holds,
      which copy on write protects. */
  function Cornered(): State {
    var mine := Sequence([1, 2, 3, 4, 9, 8], 4, [(0, 3)], 3, 4, 2, 0, 0, [0, 2]);
    var other := Sequence([1, 2, 3, 4, 6, 7], 6, [(0, 3), (4, 5)], 5, 4, 2, 0, 0, [0, 2, 3]);
    var own: Key := [1, 2, 3];
    State(2,
          [Block(3, [1, 2], {OfSeq(5, 0), OfSeq(6, 0), OfEntry(own, 0)}, [[1], [1, 2]]),
           Block(1, [1, 2, 3, 5], {OfEntry(own, 1)}, [[1, 2, 3], [1, 2, 3, 5]]),
           Block(2, [1, 2, 3, 4], {OfSeq(5, 1), OfSeq(6, 1)}, [[1, 2, 3], [1, 2, 3, 4]]),
           Block(1, [], {OfSeq(6, 2)}, [[], []])],
          map[[1, 2] := 0, [1, 2, 3, 5] := 1, [1, 2, 3, 4] := 2], map[5 := mine, 6 := other],
          map[own := Entry(1, 1, [0, 1], {})])
  }

  lemma CorneredSeqsOk()
    ensures SeqOk(Cornered(), 5) && SeqOk(Cornered(), 6)
  {
    var s := Cornered();
    assert s.seqs[5].tokens[..4] == s.seqs[6].tokens[..4] == [1, 2, 3, 4];
    Prefixes(s.seqs[5].tokens);
    Prefixes(s.seqs[6].tokens);
    assert Start(1, 2) == 2 && Start(2, 2) == 4 && Start(3, 2) == 6;
    assert PageOk(s.blocks[0], 0, 5, s.seqs[5], s.entries, 2) && PageOk(s.blocks[2], 1, 5, s.seqs[5], s.entries, 2);
    assert PageOk(s.blocks[0], 0, 6, s.seqs[6], s.entries, 2) && PageOk(s.blocks[2], 1, 6, s.seqs[6], s.entries, 2);
    assert PageOk(s.blocks[3], 2, 6, s.seqs[6], s.entries, 2);
  }

  lemma CorneredEntryOk()
    ensures EntryOk(Cornered(), [1, 2, 3])
  {
    var own: Key := [1, 2, 3];
    assert own[..1] == [1] && own[..2] == [1, 2] && own[..3] == own;
    assert Start(1, 2) == 2 && Start(2, 2) == 4;
  }

  lemma CorneredBlocksOk()
    ensures BlocksOk(Cornered())
  {
    var s := Cornered();
    Prefixes([1, 2, 3, 4]);
    assert [1, 2][..1] == [1] && [1, 2, 3, 5][..3] == [1, 2, 3];
    PublishedPairOk(s.blocks[0]);
    PublishedPairOk(s.blocks[1]);
    PublishedPairOk(s.blocks[2]);
    assert BlockOk(s.blocks[3], 2);
  }

  lemma CorneredIsGood()
    ensures Good(Cornered())
  {
    CorneredSeqsOk();
    CorneredEntryOk();
    CorneredBlocksOk();
    hide SeqOk, EntryOk, BlocksOk;
  }

  /** The scheduler's test allows the step, and copy on write raises. */
  lemma AppendAllowedInVain()
    ensures Good(Cornered()) && CanAppend(Cornered(), 5) && !CanPlan(Cornered(), 5)
  {
    CorneredIsGood();
    var s := Cornered();
    hide Good, Inv;
    var b := s.blocks[1];
    assert (set o | o in b.owners && Evictable(o, {})) == b.owners;
    assert 1 in Reclaimable(s, {});
    forall i | 0 <= i < 4 ensures !Obtainable(s.blocks[i], Match(s, 5)) {
      assert OfSeq(5, 0) in s.blocks[0].owners && OfEntry([1, 2, 3], 1) in s.blocks[1].owners;
      assert OfSeq(5, 1) in s.blocks[2].owners && OfSeq(6, 2) in s.blocks[3].owners;
      assert OwnKey(s.seqs[5]) == [1, 2, 3];
    }
    assert Available(s, Match(s, 5)) == {};
  }
}
