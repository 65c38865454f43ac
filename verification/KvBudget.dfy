/** Admission under the limits of a batch (prism_infer/engine/scheduler.py and scheduler_policy.py): the
    scheduler sizes the first chunk of a prompt from the read-only probe, allocates, and sizes it again from
    what the allocation reused. */
module KvBudget {
  import opened Paging
  import opened KvState
  import opened KvSwap
  import opened KvCapacity
  import opened KvAdmission
  import opened KvManager

  /** The limits of a prefill batch, and whether prompts are computed in chunks. */
  datatype Limits = Limits(maxTokens: nat, maxSequences: nat, maxPatches: nat, chunked: bool, maxChunk: nat)

  /** What a batch holds so far. */
  datatype Batch = Batch(sequences: nat, tokens: nat, patches: nat)

  /** A batch that the admission loop goes on to fill. */
  predicate Open(b: Batch, l: Limits) {
    && b.sequences < l.maxSequences && b.tokens <= l.maxTokens && l.maxChunk > 0
    && (if b.sequences == 0 then b.patches == 0 else b.patches <= l.maxPatches)
  }

  function Free(b: Batch, l: Limits): nat
    requires Open(b, l)
  {
    l.maxTokens - b.tokens
  }

  /** Tokens of a prompt that the next chunk computes when `start` of them count as computed: the whole rest
      or nothing without chunking; otherwise a chunk that ends where the retainable prefix ends and does not
      cut the region from the first image to the last. */
  function ChunkSize(q: Sequence, start: nat, available: nat, l: Limits): (count: nat)
    ensures count <= available
  {
    var remaining := if start < q.prompt then q.prompt - start else 0;
    if available == 0 then 0
    else if !l.chunked then (if remaining <= available then remaining else 0)
    else
      var most := start + Min(remaining, Min(l.maxChunk, available));
      var end := if start < q.boundary < most then q.boundary else most;
      if q.spans == [] then end - start else
      var first, last := q.spans[0].0, q.spans[|q.spans| - 1].1;
      if last <= start || end <= first || last <= end then end - start
      else if start < first then first - start
      else if last - start > l.maxChunk || last - start > available then 0
      else last - start
  }

  /** Patch rows of the images that a range of the prompt covers; `rows` are those of each image. */
  function Patches(spans: seq<(nat, nat)>, rows: seq<nat>, start: nat, end: nat): nat
    requires |rows| == |spans|
  {
    if spans == [] then 0
    else (if start < spans[0].1 && spans[0].0 < end then rows[0] else 0) + Patches(spans[1..], rows[1..], start, end)
  }

  /** The batch has room for a chunk. */
  predicate Accepts(b: Batch, l: Limits, q: Sequence, rows: seq<nat>, start: nat, count: nat)
    requires Open(b, l) && |rows| == |q.spans|
  {
    && count <= Free(b, l)
    && (b.sequences == 0 || b.patches + Patches(q.spans, rows, start, start + count) <= l.maxPatches)
  }

  /** How an attempt to admit a request ends.  NothingLeft and BeyondLimits are exceptions of the source:
      `scheduler admitted a fully cached prompt without a computable tail` and `KV allocation changed prefill
      candidate beyond batch limits`. */
  datatype Admission = Deferred | NothingLeft | BeyondLimits | Admitted

  /** The steps of admission, in their order.  `counted` rows count as computed before: none, unless an
      earlier attempt raised an exception. */
  function AdmissionOf(s: State, id: nat, counted: nat, rows: seq<nat>, b: Batch, l: Limits): Admission
    requires s.size > 0 && id in s.seqs && |rows| == |s.seqs[id].spans| && Open(b, l)
  {
    var q := s.seqs[id];
    var probed, reused := Max(counted, Candidate(s, id)), Max(counted, ReusedPrefix(s, id));
    var before, after := ChunkSize(q, probed, Free(b, l), l), ChunkSize(q, reused, Free(b, l), l);
    if before == 0 || !CanAllocate(s, id) || !Accepts(b, l, q, rows, probed, before) then Deferred
    else if after == 0 then NothingLeft
    else if !Accepts(b, l, q, rows, reused, after) then BeyondLimits
    else Admitted
  }

  // ----- what the images contribute

  /** No image starts at or after the end of the last one. */
  lemma {:induction false} NoPatchesBehind(spans: seq<(nat, nat)>, rows: seq<nat>, n: nat, start: nat, end: nat)
    requires |rows| == |spans| && SpansOk(spans, n) && (spans != [] ==> spans[|spans| - 1].1 <= start)
    ensures Patches(spans, rows, start, end) == 0
  {
    if spans != [] {
      NoPatchesBehind(spans[1..], rows[1..], n, start, end);
    }
  }

  /** With a retained prefix every image is behind what is reused, whatever else was found. */
  lemma NoPatchesAfterPrefix(q: Sequence, rows: seq<nat>, start: nat, end: nat)
    requires Shape(q) && q.boundary > 0 && |rows| == |q.spans| && q.boundary <= start
    ensures Patches(q.spans, rows, start, end) == 0
  {
    NoPatchesBehind(q.spans, rows, q.prompt, start, end);
  }

  /** A key of a retained prefix is not empty. */
  lemma RetainedHasBoundary(s: State, id: nat)
    requires Good(s) && id in s.seqs && OwnKey(s.seqs[id]) in s.entries
    ensures s.seqs[id].boundary > 0
  {
    assert EntryOk(s, OwnKey(s.seqs[id]));
  }

  /** Behind its images, with something left, a chunk is empty only if the whole rest has to fit and does not. */
  lemma ChunkBehindImages(q: Sequence, start: nat, available: nat, l: Limits)
    requires Shape(q) && q.boundary > 0 && q.boundary <= start && available > 0 && l.maxChunk > 0
    ensures ChunkSize(q, start, available, l) == 0 <==>
            start >= q.prompt || (!l.chunked && q.prompt - start > available)
  {
  }

  /** Nothing is left of a prompt that counts as computed. */
  lemma NothingBehindPrompt(q: Sequence, start: nat, available: nat, l: Limits)
    requires Shape(q) && q.prompt <= start
    ensures ChunkSize(q, start, available, l) == 0
  {
  }

  // ----- when admission raises

  /** With a retained prefix: the allocation reuses that prefix only, and the longer rest has to fit at once. */
  lemma PrefixAdmission(s: State, id: nat, counted: nat, rows: seq<nat>, b: Batch, l: Limits)
    requires Good(s) && id in s.seqs && |rows| == |s.seqs[id].spans| && Open(b, l)
    requires OwnKey(s.seqs[id]) in s.entries
    ensures var q, a := s.seqs[id], AdmissionOf(s, id, counted, rows, b, l);
            && a != BeyondLimits
            && (a == NothingLeft <==>
                a != Deferred && !l.chunked && q.prompt - Max(counted, q.boundary) > Free(b, l))
  {
    hide Good, CanAllocate, Patches, ChunkSize;
    GoodShapeOf(s, id);
    var q := s.seqs[id];
    RetainedHasBoundary(s, id);
    var probed, reused := Max(counted, Candidate(s, id)), Max(counted, q.boundary);
    var before, after := ChunkSize(q, probed, Free(b, l), l), ChunkSize(q, reused, Free(b, l), l);
    if before > 0 {
      ChunkBehindImages(q, probed, Free(b, l), l);
      ChunkBehindImages(q, reused, Free(b, l), l);
      NoPatchesAfterPrefix(q, rows, reused, reused + after);
    }
  }

  lemma GoodShapeOf(s: State, id: nat)
    requires Good(s) && id in s.seqs
    ensures Shape(s.seqs[id]) && s.size > 0
  {
    hide Inv, SpansOk;
  }

  /** Without one: the allocation reuses what the probe found, or its walk goes past the prompt. */
  lemma WalkAdmission(s: State, id: nat, counted: nat, rows: seq<nat>, b: Batch, l: Limits)
    requires Good(s) && id in s.seqs && |rows| == |s.seqs[id].spans| && Open(b, l)
    requires OwnKey(s.seqs[id]) !in s.entries
    ensures var a := AdmissionOf(s, id, counted, rows, b, l);
            && a != BeyondLimits
            && (a == NothingLeft <==> a != Deferred && HitsPastPrompt(s.index, s.seqs[id], s.size))
  {
    hide Good, CanAllocate, Patches, HitsPastPrompt, CachedPrefix, WalkedPrefix, ChunkSize;
    GoodShapeOf(s, id);
    WalkedPastPromptIff(s, id);
    if HitsPastPrompt(s.index, s.seqs[id], s.size) {
      NothingBehindPrompt(s.seqs[id], Max(counted, WalkedPrefix(s, id)), Free(b, l), l);
    }
  }

  /** Admission raises one exception only, and exactly when the request was found admissible and: without a
      retained prefix, its own output was published past its prompt; with one, prompts are not chunked and what
      is left behind the prefix does not fit the batch, although what is left behind the walk does. */
  lemma AdmissionRaisesIff(s: State, id: nat, rows: seq<nat>, b: Batch, l: Limits)
    requires Good(s) && id in s.seqs && |rows| == |s.seqs[id].spans| && Open(b, l)
    ensures var q, a := s.seqs[id], AdmissionOf(s, id, 0, rows, b, l);
            && a != BeyondLimits
            && (OwnKey(q) !in s.entries ==>
                (a == NothingLeft <==> a != Deferred && HitsPastPrompt(s.index, q, s.size)))
            && (OwnKey(q) in s.entries ==>
                (a == NothingLeft <==>
                 CanAllocate(s, id) && !l.chunked
                 && q.prompt - CachedPrefix(s, id) <= Free(b, l) < q.prompt - q.boundary))
  {
    hide Good, CanAllocate, HitsPastPrompt, CachedPrefix, WalkedPrefix, Patches;
    GoodShapeOf(s, id);
    WalkedPastPromptIff(s, id);
    if OwnKey(s.seqs[id]) in s.entries {
      RetainedHasBoundary(s, id);
      PrefixAdmission(s, id, 0, rows, b, l);
      var q, probed := s.seqs[id], Candidate(s, id);
      NoPatchesAfterPrefix(q, rows, probed, probed + ChunkSize(q, probed, Free(b, l), l));
    } else {
      WalkAdmission(s, id, 0, rows, b, l);
    }
  }

  /** A request that has produced nothing is refused that way only if its prefix is retained and prompts are
      not chunked. */
  lemma FreshAdmission(s: State, id: nat, rows: seq<nat>, b: Batch, l: Limits)
    requires Good(s) && id in s.seqs && |rows| == |s.seqs[id].spans| && Open(b, l)
    requires |s.seqs[id].tokens| == s.seqs[id].prompt
    requires AdmissionOf(s, id, 0, rows, b, l) == NothingLeft
    ensures OwnKey(s.seqs[id]) in s.entries && !l.chunked && CachedPrefix(s, id) > s.seqs[id].boundary
  {
    hide Good, CanAllocate, HitsPastPrompt, CachedPrefix, WalkedPrefix, AdmissionOf;
    GoodShapeOf(s, id);
    AdmissionRaisesIff(s, id, rows, b, l);
    FreshRequestsFit(s, id);
  }

  /** What the exception leaves behind: the rows that the allocation reused count as computed, although they
      were given up.  A whole prompt that counts as computed is never admitted again. */
  lemma NeverAgain(s: State, id: nat, counted: nat, rows: seq<nat>, b: Batch, l: Limits)
    requires Good(s) && id in s.seqs && |rows| == |s.seqs[id].spans| && Open(b, l)
    requires s.seqs[id].prompt <= counted
    ensures AdmissionOf(s, id, counted, rows, b, l) == Deferred
  {
    hide Good, CanAllocate, ReusedPrefix, Candidate, ChunkSize;
    GoodShapeOf(s, id);
    NothingBehindPrompt(s.seqs[id], Max(counted, Candidate(s, id)), Free(b, l), l);
  }

  /** An admitted request has something left of its prompt. */
  lemma AdmittedIsUnfinished(s: State, id: nat, rows: seq<nat>, b: Batch, l: Limits)
    requires Good(s) && id in s.seqs && |rows| == |s.seqs[id].spans| && Open(b, l)
    ensures AdmissionOf(s, id, 0, rows, b, l) == Admitted ==> ReusedPrefix(s, id) < s.seqs[id].prompt
  {
    hide Good, CanAllocate, ReusedPrefix, Candidate, ChunkSize, Accepts;
    GoodShapeOf(s, id);
    if s.seqs[id].prompt <= ReusedPrefix(s, id) {
      NothingBehindPrompt(s.seqs[id], ReusedPrefix(s, id), Free(b, l), l);
    }
  }

  // ----- the attempt itself

  predicate Waits(q: Sequence) { q.table == [] && q.computed == q.published == 0 }

  ghost predicate OthersAsBefore(s: State, t: State, id: nat) {
    t.size == s.size && t.seqs.Keys == s.seqs.Keys && forall j :: j in s.seqs && j != id ==> t.seqs[j] == s.seqs[j]
  }

  lemma RequestAsBefore(s: State, t: State, id: nat)
    requires Calm(s) && Calm(t) && id in s.seqs && OthersKept(s, t, id) && Waits(s.seqs[id]) && Waits(t.seqs[id])
    ensures t.seqs[id] == s.seqs[id]
  {
  }

  /** What is reused is within the tokens, so that it counts like any other computed rows. */
  lemma AfterAllocation(s: State, t: State, id: nat, counted: nat, rows: seq<nat>, b: Batch, l: Limits)
    requires s.size > 0 && id in s.seqs && id in t.seqs && OthersKept(s, t, id) && Open(b, l)
    requires |rows| == |s.seqs[id].spans| && t.seqs[id].computed == ReusedPrefix(s, id)
    ensures var q, start := t.seqs[id], Max(counted, t.seqs[id].computed);
            var count := ChunkSize(q, start, Free(b, l), l);
            && |rows| == |q.spans| && OwnKey(q) == OwnKey(s.seqs[id])
            && (count == 0 <==> ChunkSize(s.seqs[id], Max(counted, ReusedPrefix(s, id)), Free(b, l), l) == 0)
            && (Accepts(b, l, q, rows, start, count) <==>
                Accepts(b, l, s.seqs[id], rows, Max(counted, ReusedPrefix(s, id)), count))
            && count == ChunkSize(s.seqs[id], Max(counted, ReusedPrefix(s, id)), Free(b, l), l)
  {
    hide ReusedPrefix;
  }

  /** An attempt to admit a waiting request: the first chunk is sized from the probe, pages are allocated, and the
      chunk is sized again from what was reused.  After an exception the pages are given up. */
  method TryAdmit(m: BlockManager, id: nat, keepClone: bool, counted: nat, rows: seq<nat>, b: Batch, l: Limits)
    returns (a: Admission)
    requires m.Valid() && id in m.kv.seqs && id !in m.cpu && Waits(m.kv.seqs[id])
    requires |rows| == |m.kv.seqs[id].spans| && Open(b, l)
    modifies m`kv
    ensures m.Valid() && OthersKept(old(m.kv), m.kv, id)
    ensures a == AdmissionOf(old(m.kv), id, counted, rows, b, l)
    ensures a == Deferred ==> m.kv == old(m.kv)
    ensures a != Admitted ==> m.kv.seqs == old(m.kv).seqs
    ensures a == Admitted ==>
              var q, retained := m.kv.seqs[id], OwnKey(old(m.kv).seqs[id]) in old(m.kv).entries;
              && |q.table| == PagesFor(if retained then q.prompt else |q.tokens|, m.kv.size)
              && q.computed == ReusedPrefix(old(m.kv), id) && Caught(q, m.kv.size)
  {
    hide Inv, Shape, Whole, Parked, Slots, ReusedPrefix, Candidate, CanAllocate, ChunkSize, Accepts, OwnKey, Waits;
    ghost var s := m.kv;
    var probed := Max(counted, Candidate(m.kv, id));
    var before := ChunkSize(m.kv.seqs[id], probed, Free(b, l), l);
    if before == 0 || !CanAllocate(m.kv, id) || !Accepts(b, l, m.kv.seqs[id], rows, probed, before) {
      return Deferred;
    }
    WaitsFor(m.kv.seqs[id]);
    var ok := m.Allocate(id, keepClone);
    AfterAllocation(s, m.kv, id, counted, rows, b, l);
    var reused := Max(counted, m.kv.seqs[id].computed);
    var after := ChunkSize(m.kv.seqs[id], reused, Free(b, l), l);
    if after > 0 && Accepts(b, l, m.kv.seqs[id], rows, reused, after) {
      return Admitted;
    }
    m.Release(id);
    WaitsFor(m.kv.seqs[id]);
    RequestAsBefore(s, m.kv, id);
    assert m.kv.seqs == s.seqs;
    return if after == 0 then NothingLeft else BeyondLimits;
  }

  lemma WaitsFor(q: Sequence)
    ensures Waits(q) <==> q.table == [] && q.computed == q.published == 0
  {
  }

  // ----- an instance

  /** A request for [1, 2, 3, 4, 5], whose image is the first token, ran and left: the image's prefix is retained,
      and both complete pages of the prompt are still in the index.  The same prompt arrives again. */
  function Repeated(): State {
    var again := Sequence([1, 2, 3, 4, 5], 5, [(0, 1)], 1, 0, 0, 0, 0, []);
    State(2,
          [Block(1, [1, 2], {OfEntry([1], 0)}, [[1], [1, 2]]),
           Block(0, [1, 2, 3, 4], {}, [[1, 2, 3], [1, 2, 3, 4]]),
           Block(0, [], {}, [[1, 2, 3, 4, 5], []]),
           Block(0, [], {}, [[], []])],
          map[[1, 2] := 0, [1, 2, 3, 4] := 1], map[5 := again], map[[1] := Entry(0, 1, [0], {})])
  }

  lemma RepeatedBlocksOk()
    ensures BlocksOk(Repeated())
  {
    var s := Repeated();
    assert [1, 2][..1] == [1] && [1, 2][..2] == [1, 2];
    assert [1, 2, 3, 4][..3] == [1, 2, 3] && [1, 2, 3, 4][..4] == [1, 2, 3, 4];
    forall i | 0 <= i < 4 ensures BlockOk(s.blocks[i], 2) { }
  }

  lemma RepeatedEntryOk()
    ensures EntryOk(Repeated(), [1])
  {
    var key: Key := [1];
    assert key[..1] == key && Start(0, 2) == 0;
    assert EntryPageOk(Repeated().blocks[0], 0, key, 0, 2);
  }

  lemma RepeatedIsGood()
    ensures Good(Repeated()) && Shape(Repeated().seqs[5]) && OwnKey(Repeated().seqs[5]) == [1]
  {
    RepeatedBlocksOk();
    RepeatedEntryOk();
    assert SeqOk(Repeated(), 5);
    hide SeqOk, EntryOk, BlocksOk;
    assert Repeated().seqs[5].tokens[..1] == [1];
  }

  lemma RepeatedHasRoom()
    ensures OwnKey(Repeated().seqs[5]) == [1] && CanAllocate(Repeated(), 5)
  {
    assert Repeated().seqs[5].tokens[..1] == [1];
    assert FreePages(Repeated()) == {1, 2, 3};
  }

  lemma RepeatedWalk()
    ensures CachedPrefix(Repeated(), 5) == 4
  {
    var s := Repeated();
    var q := s.seqs[5];
    assert q.tokens[..2] == [1, 2] && q.tokens[..4] == [1, 2, 3, 4];
    assert Start(1, 2) == 2 && Start(2, 2) == 4 && Probeable(q, 2) == 2;
    assert Indexed(s.index, q.tokens, 2, 0) && Indexed(s.index, q.tokens, 2, 1);
    assert Chain(s.index, q.tokens, 2, 0, 2) == Chain(s.index, q.tokens, 2, 1, 2) == 2;
    assert SnapToImage([(0, 1)], 4) == SnapToImage([], 4) == 4;
  }

  /** It is new and produced nothing; the probe finds four rows, the allocation reuses one.  A batch with room for
      three tokens takes it for the one token left behind the walk, and admission raises. */
  lemma FreshRequestRaises()
    ensures var s, l := Repeated(), Limits(3, 8, 100, false, 512);
            && Good(s) && |s.seqs[5].tokens| == s.seqs[5].prompt
            && Candidate(s, 5) == 4 && ReusedPrefix(s, 5) == 1
            && AdmissionOf(s, 5, 0, [4], Batch(0, 0, 0), l) == NothingLeft
  {
    RepeatedIsGood();
    RepeatedHasRoom();
    RepeatedWalk();
    hide Good, CanAllocate, CachedPrefix, OwnKey;
    AdmissionRaisesIff(Repeated(), 5, [4], Batch(0, 0, 0), Limits(3, 8, 100, false, 512));
  }

  /** After that exception one row counts as computed.  When the prefix and the hashes are gone by the next attempt. */
  function Forgotten(): State {
    var again := Sequence([1, 2, 3, 4, 5], 5, [(0, 1)], 1, 0, 0, 0, 0, []);
    var empty := Block(0, [], {}, [[], []]);
    State(2, [empty, empty, empty], map[], map[5 := again], map[])
  }

  lemma ForgottenIsGood()
    ensures Good(Forgotten()) && CanAllocate(Forgotten(), 5) && OwnKey(Forgotten().seqs[5]) !in Forgotten().entries
  {
    assert SeqOk(Forgotten(), 5);
    assert FreePages(Forgotten()) == {0, 1, 2};
  }

  /** The request is admitted, and its first chunk starts behind that row, which nobody computed. */
  lemma SkippedRow()
    ensures var s, l := Forgotten(), Limits(512, 8, 100, false, 512);
            && Good(s) && ReusedPrefix(s, 5) == 0
            && AdmissionOf(s, 5, 1, [4], Batch(0, 0, 0), l) == Admitted
            && ChunkSize(s.seqs[5], Max(1, ReusedPrefix(s, 5)), 512, l) == 4
  {
    ForgottenIsGood();
    var s := Forgotten();
    hide Good, CanAllocate, OwnKey;
    assert !Indexed(s.index, s.seqs[5].tokens, 2, 0);
    assert CachedPrefix(s, 5) == 0 && WalkedPrefix(s, 5) == 0;
  }
}
