/** What the block manager's admission relies on: the walk through the prefix index, eviction, and
    the accounting that shows an admitted request never runs out of pages half way. */
module KvAdmission {
  import opened Paging
  import opened KvState
  import opened KvSteps
  import opened KvPublishSteps
  import opened KvEntrySteps
  import opened KvSwap
  import opened KvRuns
  import opened KvCapacity
  import opened FiniteSets

  // ----- what a request looks like

  /** The token ranges of images: in order, within the first n tokens. */
  predicate SpansOk(spans: seq<(nat, nat)>, n: nat) {
    && (forall i :: 0 <= i < |spans| ==> spans[i].0 < spans[i].1 <= n)
    && forall i, j :: 0 <= i < j < |spans| ==> spans[i].1 <= spans[j].0
  }

  /** The prefix that may be retained: up to the end of the last image, if the prompt goes on after it. */
  function BoundaryOf(spans: seq<(nat, nat)>, prompt: nat): nat {
    if spans != [] && spans[|spans| - 1].1 < prompt then spans[|spans| - 1].1 else 0
  }

  /** Images lie in the prompt, which is not empty. */
  predicate Shape(q: Sequence) {
    && 0 < q.prompt <= |q.tokens| && q.boundary < q.prompt && q.boundary == BoundaryOf(q.spans, q.prompt)
    && SpansOk(q.spans, q.prompt)
  }

  // ----- prefix walk

  /** The history up to the end of page k leads to a page. */
  predicate Indexed(index: map<Key, nat>, tokens: Key, size: nat, k: nat) {
    Start(k + 1, size) <= |tokens| && tokens[..Start(k + 1, size)] in index
  }

  /** The walk through the index from page i: it ends at the first miss, or at the limit. */
  function Chain(index: map<Key, nat>, tokens: Key, size: nat, i: nat, limit: nat): (h: nat)
    ensures i <= limit ==> i <= h <= limit
    ensures forall k :: i <= k < h ==> Indexed(index, tokens, size, k)
    ensures h < limit ==> !Indexed(index, tokens, size, h)
    decreases limit - i
  {
    if i < limit && Indexed(index, tokens, size, i) then Chain(index, tokens, size, i + 1, limit) else i
  }

  /** Pages that an allocation may hit: the complete ones of all tokens, but never the last page of an
      aligned prompt. */
  function Walkable(q: Sequence, size: nat): nat
    requires size > 0
  {
    var full := |q.tokens| / size;
    if q.prompt % size == 0 && full == PagesFor(|q.tokens|, size) && full > 0 then full - 1 else full
  }

  /** Pages that the read-only probe looks at: complete pages of the prompt that leave it a rest. */
  function Probeable(q: Sequence, size: nat): nat
    requires size > 0
  {
    var full := q.prompt / size;
    if q.prompt % size != 0 || full == 0 then full else full - 1
  }

  lemma WalkableFits(q: Sequence, size: nat)
    requires size > 0
    ensures Start(Walkable(q, size), size) <= |q.tokens| && Walkable(q, size) <= PagesFor(|q.tokens|, size)
  {
    var full, pages := |q.tokens| / size, PagesFor(|q.tokens|, size);
    assert Start(full, size) <= |q.tokens| by { PageOfRow(|q.tokens|, size); }
    assert |q.tokens| <= Start(pages, size) by { PagesCover(|q.tokens|, size); }
    FloorBelowCeil(full, pages, |q.tokens|, size);
    assert full > 0 ==> Start(full - 1, size) <= Start(full, size) by {
      if full > 0 { StartMonotone(full - 1, full, size); }
    }
  }

  /** The probe stops within the prompt, one page before its end is reached, and an allocation walks at
      least as far. */
  lemma ProbeableFits(q: Sequence, size: nat)
    requires size > 0 && 0 < q.prompt <= |q.tokens|
    ensures Start(Probeable(q, size), size) < q.prompt <= Start(Probeable(q, size) + 1, size)
    ensures Probeable(q, size) <= Walkable(q, size)
  {
    var full, all := q.prompt / size, |q.tokens| / size;
    PageOfRow(q.prompt, size);
    PageOfRow(|q.tokens|, size);
    StartReflects(full, all + 1, size);
  }

  /** A hit that ends inside an image is moved back to where the image starts. */
  function SnapToImage(spans: seq<(nat, nat)>, candidate: nat): (r: nat)
    ensures r <= candidate
  {
    if spans == [] || candidate == 0 then candidate
    else if spans[0].0 < candidate < spans[0].1 then spans[0].0
    else SnapToImage(spans[1..], candidate)
  }

  predicate InsideImage(spans: seq<(nat, nat)>, p: nat) { exists i :: 0 <= i < |spans| && spans[i].0 < p < spans[i].1 }

  /** The result is inside no image, and no later position up to the hit would do. */
  lemma {:induction false} SnapIsOutside(spans: seq<(nat, nat)>, n: nat, candidate: nat)
    requires SpansOk(spans, n)
    ensures !InsideImage(spans, SnapToImage(spans, candidate))
    ensures forall p :: SnapToImage(spans, candidate) < p <= candidate ==> InsideImage(spans, p)
    ensures SnapToImage(spans, candidate) == candidate <==> !InsideImage(spans, candidate)
  {
    if spans != [] && candidate > 0 {
      var rest := spans[1..];
      SnapIsOutside(rest, n, candidate);
      var r := SnapToImage(spans, candidate);
      if spans[0].0 < candidate < spans[0].1 {
        assert !InsideImage(spans, r);
        forall p | r < p <= candidate ensures InsideImage(spans, p) {
          assert spans[0].0 < p < spans[0].1;
        }
      } else {
        SnapStaysBehind(spans, n, candidate);
        forall p ensures InsideImage(spans, p) <==> InsideImage(rest, p) || spans[0].0 < p < spans[0].1 {
          if InsideImage(rest, p) {
            var i :| 0 <= i < |rest| && rest[i].0 < p < rest[i].1;
            assert spans[i + 1].0 < p < spans[i + 1].1;
          }
          if InsideImage(spans, p) && !(spans[0].0 < p < spans[0].1) {
            var i :| 0 <= i < |spans| && spans[i].0 < p < spans[i].1;
            assert rest[i - 1].0 < p < rest[i - 1].1;
          }
        }
      }
    }
  }

  /** A hit that is not in the first image is not moved into it. */
  lemma {:induction false} SnapStaysBehind(spans: seq<(nat, nat)>, n: nat, candidate: nat)
    requires SpansOk(spans, n) && spans != [] && !(spans[0].0 < candidate < spans[0].1)
    ensures var r := SnapToImage(spans[1..], candidate); !(spans[0].0 < r < spans[0].1)
  {
    SnapIsStart(spans[1..], candidate);
  }

  lemma {:induction false} SnapIsStart(spans: seq<(nat, nat)>, candidate: nat)
    ensures var r := SnapToImage(spans, candidate);
            r == candidate || exists i :: 0 <= i < |spans| && r == spans[i].0
  {
    if spans != [] && candidate > 0 && !(spans[0].0 < candidate < spans[0].1) {
      SnapIsStart(spans[1..], candidate);
      if i :| 0 <= i < |spans[1..]| && SnapToImage(spans[1..], candidate) == spans[1..][i].0 {
        assert spans[i + 1].0 == SnapToImage(spans, candidate);
      }
    }
  }

  /** Rows that the read-only walk of the prompt finds computed. */
  function CachedPrefix(s: State, id: nat): nat
    requires s.size > 0 && id in s.seqs
  {
    var q := s.seqs[id];
    SnapToImage(q.spans, Start(Chain(s.index, q.tokens, s.size, 0, Probeable(q, s.size)), s.size))
  }

  /** The read-only probe of the scheduler: the walk, or a retained prefix if that is longer. */
  function Candidate(s: State, id: nat): nat
    requires s.size > 0 && id in s.seqs
  {
    var q := s.seqs[id];
    if OwnKey(q) in s.entries && q.boundary > CachedPrefix(s, id) then q.boundary else CachedPrefix(s, id)
  }

  /** Rows that an allocation without a retained prefix takes over as computed. */
  function WalkedPrefix(s: State, id: nat): nat
    requires s.size > 0 && id in s.seqs
  {
    var q := s.seqs[id];
    SnapToImage(q.spans, Start(Chain(s.index, q.tokens, s.size, 0, Walkable(q, s.size)), s.size))
  }

  /** Rows that an allocation takes over as computed. */
  function ReusedPrefix(s: State, id: nat): nat
    requires s.size > 0 && id in s.seqs
  {
    if OwnKey(s.seqs[id]) in s.entries then s.seqs[id].boundary else WalkedPrefix(s, id)
  }

  /** Every page up to the one that holds the end of the prompt is in the index, and the allocation looks
      that far: the request has more tokens than its prompt, and they were published. */
  predicate HitsPastPrompt(index: map<Key, nat>, q: Sequence, size: nat)
    requires size > 0
  {
    Probeable(q, size) < Walkable(q, size) && forall k :: 0 <= k <= Probeable(q, size) ==>
      Indexed(index, q.tokens, size, k)
  }

  /** The walk of an allocation goes past the prompt exactly then. */
  lemma WalkedPastPromptIff(s: State, id: nat)
    requires s.size > 0 && id in s.seqs && Shape(s.seqs[id])
    ensures CachedPrefix(s, id) < s.seqs[id].prompt
    ensures if HitsPastPrompt(s.index, s.seqs[id], s.size) then WalkedPrefix(s, id) >= s.seqs[id].prompt
            else WalkedPrefix(s, id) == CachedPrefix(s, id)
  {
    var q := s.seqs[id];
    var near, far := Probeable(q, s.size), Walkable(q, s.size);
    ProbeableFits(q, s.size);
    var g, h := Chain(s.index, q.tokens, s.size, 0, near), Chain(s.index, q.tokens, s.size, 0, far);
    StartMonotone(g, near, s.size);
    if HitsPastPrompt(s.index, q, s.size) {
      assert h > near;
      StartMonotone(near + 1, h, s.size);
      SnapIsOutside(q.spans, q.prompt, Start(h, s.size));
    } else {
      assert h == g;
    }
  }

  /** The probe reports exactly what the allocation then reuses, unless the request's own output was
      published past the prompt; with a retained prefix, unless the walk finds more than the prefix. */
  lemma ProbeIsExactIff(s: State, id: nat)
    requires s.size > 0 && id in s.seqs && Shape(s.seqs[id])
    ensures Candidate(s, id) == ReusedPrefix(s, id) <==>
            if OwnKey(s.seqs[id]) in s.entries then CachedPrefix(s, id) <= s.seqs[id].boundary
            else !HitsPastPrompt(s.index, s.seqs[id], s.size)
  {
    WalkedPastPromptIff(s, id);
  }

  /** A request that was admitted has nothing left to compute, which the scheduler takes for a broken
      invariant, exactly if its own output was published past the prompt and no prefix is retained. */
  lemma NothingLeftIff(s: State, id: nat)
    requires s.size > 0 && id in s.seqs && Shape(s.seqs[id])
    ensures ReusedPrefix(s, id) >= s.seqs[id].prompt <==>
            OwnKey(s.seqs[id]) !in s.entries && HitsPastPrompt(s.index, s.seqs[id], s.size)
  {
    WalkedPastPromptIff(s, id);
  }

  /** Before it has produced a token, a request is always left with something to do.  Without a retained
      prefix it is probed exactly; with one, exactly if the walk finds no more than the prefix. */
  lemma FreshRequestsFit(s: State, id: nat)
    requires s.size > 0 && id in s.seqs && Shape(s.seqs[id]) && |s.seqs[id].tokens| == s.seqs[id].prompt
    ensures !HitsPastPrompt(s.index, s.seqs[id], s.size) && ReusedPrefix(s, id) < s.seqs[id].prompt
    ensures Candidate(s, id) == ReusedPrefix(s, id) <==>
            OwnKey(s.seqs[id]) !in s.entries || CachedPrefix(s, id) <= s.seqs[id].boundary
  {
    var q := s.seqs[id];
    var full := q.prompt / s.size;
    PageOfRow(q.prompt, s.size);
    PagesCover(q.prompt, s.size);
    if q.prompt % s.size == 0 {
      if full > 0 { PagesAre(full, q.prompt, s.size); }
    }
    WalkedPastPromptIff(s, id);
  }

  /** With pages of two rows, a prompt of one token and two tokens of output, of which the first filled
      page [7, 8] was published: the probe reports nothing, the allocation reuses two rows, and nothing
      of the prompt is left to compute. */
  lemma ProbeMisses()
    ensures var q := Sequence([7, 8, 9], 1, [], 0, 0, 0, 0, 0, []);
            var page := Block(0, [7, 8], {}, [[7], [7, 8]]);
            var s := State(2, [page], map[[7, 8] := 0], map[5 := q], map[]);
            && Good(s) && Candidate(s, 5) == 0 && ReusedPrefix(s, 5) == 2 > q.prompt
  {
    var q := Sequence([7, 8, 9], 1, [], 0, 0, 0, 0, 0, []);
    var page := Block(0, [7, 8], {}, [[7], [7, 8]]);
    var s := State(2, [page], map[[7, 8] := 0], map[5 := q], map[]);
    assert [7, 8, 9][..2] == [7, 8] && [7, 8][..1] == [7] && [7, 8][..2] == [7, 8];
    assert Start(1, 2) == 2 && Start(2, 2) == 4;
    assert Indexed(s.index, q.tokens, 2, 0);
    assert Probeable(q, 2) == 0 && Walkable(q, 2) == 1;
    assert Chain(s.index, q.tokens, 2, 0, 1) == 1;
    assert SeqOk(s, 5);
  }

  // ----- invariants of the manager

  /** Requests are as they should be, and none of their pages waits to be made private. */
  ghost predicate Calm(s: State) {
    forall id :: id in s.seqs ==> s.seqs[id].dirty == s.seqs[id].dirtyEnd == 0 && Shape(s.seqs[id])
  }

  /** Retained prefixes, except perhaps those in `but`, have all their pages. */
  ghost predicate Whole(s: State, but: set<Key>) {
    forall key :: key in s.entries && key !in but ==>
      |s.entries[key].blocks| == s.entries[key].full + (if s.entries[key].tail > 0 then 1 else 0)
  }

  /** All complete computed pages of a request are published. */
  predicate Caught(q: Sequence, size: nat) { Start(q.published, size) <= q.computed < Start(q.published + 1, size) }

  ghost predicate Good(s: State) { s.size > 0 && Inv(s) && Calm(s) && Whole(s, {}) }

  /** Other requests are as they were, and so is what request id asks for. */
  ghost predicate OthersKept(s: State, t: State, id: nat) {
    && t.size == s.size && |t.blocks| == |s.blocks| && t.seqs.Keys == s.seqs.Keys && id in s.seqs
    && (forall j :: j in s.seqs && j != id ==> t.seqs[j] == s.seqs[j])
    && t.seqs[id].tokens == s.seqs[id].tokens && t.seqs[id].prompt == s.seqs[id].prompt
    && t.seqs[id].spans == s.seqs[id].spans && t.seqs[id].boundary == s.seqs[id].boundary
  }

  lemma GoodShape(s: State, id: nat)
    requires Good(s) && id in s.seqs
    ensures s.seqs[id].boundary < s.seqs[id].prompt <= |s.seqs[id].tokens|
  {
  }

  lemma StaysGood(s: State, t: State, id: nat)
    requires Good(s) && Inv(t) && OthersKept(s, t, id) && t.entries == s.entries
    requires t.seqs[id].dirty == t.seqs[id].dirtyEnd == 0
    ensures Good(t)
  {
    hide Inv, SpansOk;
  }

  /** A retained prefix for this request, if there is one. */
  function Match(s: State, id: nat): set<Key>
    requires id in s.seqs
  {
    if OwnKey(s.seqs[id]) in s.entries then {OwnKey(s.seqs[id])} else {}
  }

  // ----- evictions keep what they must

  ghost function Clones(s: State): set<(Key, nat)> {
    set key, c | key in s.entries && c in s.entries[key].clones :: (key, c)
  }

  lemma DropPageShrinks(s: State, key: Key, keep: set<Key>)
    requires key in s.entries && s.entries[key].blocks != [] && key !in keep
    requires var b := s.entries[key].blocks[|s.entries[key].blocks| - 1]; b < |s.blocks| && s.blocks[b].refs > 0
    ensures Shrunk(s, DropPage(s, key), keep)
  {
  }

  lemma DropCloneShrinks(s: State, key: Key, c: nat, keep: set<Key>)
    requires key in s.entries && c in s.entries[key].clones && key !in keep && c < |s.blocks| && s.blocks[c].refs > 0
    ensures Shrunk(s, DropClone(s, key, c), keep)
    ensures Clones(DropClone(s, key, c)) < Clones(s)
  {
    var t := DropClone(s, key, c);
    assert (key, c) in Clones(s) && (key, c) !in Clones(t);
  }

  /** Of the references that s records, only those of prefix `key` may be missing. */
  ghost predicate OnlyOfMissing(s: State, t: State, key: Key) {
    && |t.blocks| == |s.blocks|
    && forall b, o :: 0 <= b < |s.blocks| && o in s.blocks[b].owners && !Of(o, key) ==> o in t.blocks[b].owners
  }

  /** Prefix `key` is on its way out. */
  ghost predicate Evicting(s: State, t: State, key: Key, keep: set<Key>) {
    && Shrunk(s, t, keep) && OnlyOfMissing(s, t, key) && key in s.entries && t.entries.Keys == s.entries.Keys
    && forall j :: j in s.entries && j != key ==> t.entries[j] == s.entries[j]
  }

  lemma EvictPageStep(s: State, t: State, key: Key, keep: set<Key>)
    requires Inv(t) && key !in keep && Evicting(s, t, key, keep) && t.entries[key].blocks != []
    ensures var b := t.entries[key].blocks[|t.entries[key].blocks| - 1]; b < |t.blocks| && t.blocks[b].refs > 0
    ensures Inv(DropPage(t, key)) && Evicting(s, DropPage(t, key), key, keep)
  {
    hide Inv;
    DropPageKeepsInv(t, key, t.entries[key].blocks[|t.entries[key].blocks| - 1]);
    DropPageShrinks(t, key, keep);
    ShrunkTransitive(s, t, DropPage(t, key), keep);
  }

  lemma EvictCloneStep(s: State, t: State, key: Key, keep: set<Key>, c: nat)
    requires Inv(t) && key !in keep && Evicting(s, t, key, keep) && c in t.entries[key].clones
    ensures c < |t.blocks| && t.blocks[c].refs > 0
    ensures Inv(DropClone(t, key, c)) && Evicting(s, DropClone(t, key, c), key, keep)
  {
    hide Inv;
    DropCloneKeepsInv(t, key, c);
    DropCloneShrinks(t, key, c, keep);
    ShrunkTransitive(s, t, DropClone(t, key, c), keep);
  }

  lemma EvictingTransitive(s: State, t: State, u: State, key: Key, keep: set<Key>)
    requires Evicting(s, t, key, keep) && Evicting(t, u, key, keep)
    ensures Evicting(s, u, key, keep)
  {
    ShrunkTransitive(s, t, u, keep);
  }

  lemma EvictingEnds(s: State, t: State, key: Key, keep: set<Key>)
    requires Evicting(s, t, key, keep) && key !in keep
    ensures Shrunk(s, RemoveEntry(t, key), keep) && OnlyOfMissing(s, RemoveEntry(t, key), key)
    ensures RemoveEntry(t, key).entries == s.entries - {key}
  {
  }

  // ----- progress of an allocation

  /** Request id has i of n pages, the first `published` of them hits; the free pages suffice for the
      others and for private copies of the shared hits. */
  ghost predicate Allocating(s0: State, s: State, id: nat, i: nat, n: nat, miss: bool) {
    && Inv(s) && OthersKept(s0, s, id) && s.entries == s0.entries
    && id in s.seqs && s.seqs[id].dirty == s.seqs[id].dirtyEnd == 0
    && |s.seqs[id].table| == i <= n && s.seqs[id].published <= i
    && s.seqs[id].computed == Start(s.seqs[id].published, s.size)
    && (!miss ==> s.seqs[id].published == i && s.index == s0.index)
    && n - i + |SharedPages(s, id, 0)| <= |FreePages(s)|
  }

  lemma AllocFresh(s0: State, s: State, id: nat, i: nat, n: nat, miss: bool, b: nat)
    requires Allocating(s0, s, id, i, n, miss) && i < n && b in FreePages(s)
    ensures Allocating(s0, AppendFresh(s, id, b), id, i + 1, n, true)
  {
    FreshPageIsOwn(s, id, b);
    AppendFreshKeepsInv(s, id, b);
    AppendFreshUsesOne(s, id, b);
    AppendFreshShares(s, id, b);
  }

  lemma AllocHit(s0: State, s: State, id: nat, i: nat, n: nat, b: nat)
    requires Allocating(s0, s, id, i, n, false) && i < n && Hits(s, id, b)
    ensures Allocating(s0, AppendHit(s, id, b), id, i + 1, n, false)
  {
    HitIsNew(s, id, b);
    AppendHitKeepsInv(s, id, b);
    AppendHitUses(s, id, b);
    AppendHitShares(s, id, b);
  }

  /** The walk through the index has come to page i, or has ended at a miss after `hits` pages. */
  ghost predicate Walked(index: map<Key, nat>, tokens: Key, size: nat, i: nat, limit: nat, miss: bool, hits: nat) {
    if miss then hits == Chain(index, tokens, size, 0, limit)
    else hits == i <= limit && Chain(index, tokens, size, i, limit) == Chain(index, tokens, size, 0, limit)
  }

  predicate Hittable(index: map<Key, nat>, tokens: Key, size: nat, i: nat, limit: nat) {
    i < limit && Indexed(index, tokens, size, i)
  }

  lemma HitAt(s0: State, s: State, id: nat, i: nat, n: nat, limit: nat)
    requires Allocating(s0, s, id, i, n, false) && Hittable(s.index, s.seqs[id].tokens, s.size, i, limit)
    ensures Start(i + 1, s.size) <= |s.seqs[id].tokens|
    ensures Hits(s, id, s.index[s.seqs[id].tokens[..Start(i + 1, s.size)]])
  {
    assert IndexOk(s);
  }

  lemma WalkOn(index: map<Key, nat>, tokens: Key, size: nat, i: nat, limit: nat)
    requires Walked(index, tokens, size, i, limit, false, i)
    ensures if Hittable(index, tokens, size, i, limit) then Walked(index, tokens, size, i + 1, limit, false, i + 1)
            else Walked(index, tokens, size, i + 1, limit, true, i)
  {
  }

  /** The pages of request id from `first` up to k are private again, those up to `end` still wait. */
  ghost predicate Privatizing(s0: State, s: State, id: nat, first: nat, k: nat, end: nat) {
    && Inv(s) && OthersKept(s0, s, id) && s.entries == s0.entries
    && id in s.seqs && |s.seqs[id].table| == |s0.seqs[id].table|
    && s.seqs[id].dirty == k && s.seqs[id].dirtyEnd == end && first <= k <= end <= |s.seqs[id].table|
    && s.seqs[id].published == first && Start(first, s.size) <= s.seqs[id].computed < Start(first + 1, s.size)
    && |SharedPages(s, id, k)| <= |FreePages(s)|
  }

  /** Rows of page k that stay computed: some of the first page, none of the later ones. */
  function RetainedRows(q: Sequence, k: nat, size: nat): nat {
    if q.computed >= Start(k, size) then q.computed - Start(k, size) else 0
  }

  lemma RetainedFits(q: Sequence, first: nat, k: nat, size: nat)
    requires size > 0 && first <= k && Start(first, size) <= q.computed < Start(first + 1, size)
    ensures q.computed <= Start(k, size) + RetainedRows(q, k, size) && RetainedRows(q, k, size) <= size
  {
    if first < k { StartMonotone(first + 1, k, size); }
  }

  lemma PrivatizingFrom(s0: State, s: State, id: nat, first: nat, k: nat, end: nat)
    requires Privatizing(s0, s, id, first, k, end)
    ensures Privatizing(s, s, id, first, k, end)
  {
  }

  lemma PrivatizingOn(s0: State, s: State, t: State, id: nat, first: nat, k: nat, end: nat)
    requires Privatizing(s0, s, id, first, k, end) && Privatizing(s, t, id, first, k + 1, end)
    ensures Privatizing(s0, t, id, first, k + 1, end)
  {
  }

  lemma PrivatizeReady(s0: State, s: State, id: nat, first: nat, k: nat, end: nat, b: nat)
    requires Privatizing(s0, s, id, first, k, end) && k < end && b in FreePages(s)
    ensures Replaceable(s, id, k, b, RetainedRows(s.seqs[id], k, s.size))
    ensures s.seqs[id].table[k] < |s.blocks| && |s.blocks[s.seqs[id].table[k]].rows| == |s.blocks[b].rows| == s.size
    ensures b !in s.seqs[id].table && s.blocks[s.seqs[id].table[k]].refs > 0
  {
    RetainedFits(s.seqs[id], first, k, s.size);
    FreshPageIsOwn(s, id, b);
    OwnedPage(s, id, k);
    assert BlockOk(s.blocks[b], s.size);
  }

  lemma PrivatizeOne(s0: State, s: State, id: nat, first: nat, k: nat, end: nat, b: nat, n: nat)
    requires Privatizing(s0, s, id, first, k, end) && k < end && b in FreePages(s) && Replaceable(s, id, k, b, n)
    requires s.seqs[id].table[k] < |s.blocks| && s.blocks[s.seqs[id].table[k]].refs > 1
    requires |s.blocks[s.seqs[id].table[k]].rows| == |s.blocks[b].rows| == s.size && b !in s.seqs[id].table
    ensures Privatizing(s0, ReplacePage(s, id, k, b, n), id, first, k + 1, end)
  {
    ReplacePageKeepsInv(s, id, k, b, n);
    ReplacePageUsesOne(s, id, k, b, n);
    ReplacePageShares(s, id, k, b, n);
  }

  lemma StartPrivatizing(s: State, id: nat, n: nat, first: nat, snapped: nat)
    requires id in s.seqs && Allocating(s, s, id, n, n, true)
    requires first < s.seqs[id].published && Start(first, s.size) <= snapped < Start(first + 1, s.size)
    requires snapped <= s.seqs[id].computed
    ensures Privatizing(s, Snap(s, id, first, snapped), id, first, first, s.seqs[id].published)
  {
    hide Inv;
    SnapKeepsInv(s, id, first, snapped);
    SharedFromLater(s, id, first);
    assert SharedPages(Snap(s, id, first, snapped), id, first) == SharedPages(s, id, first);
    assert FreePages(Snap(s, id, first, snapped)) == FreePages(s);
  }

  lemma EndPrivatizing(s0: State, s: State, t: State, id: nat, first: nat, end: nat)
    requires Privatizing(s0, s, id, first, first, end) && Privatizing(s, t, id, first, end, end)
    ensures Inv(Rest(t, id)) && OthersKept(s0, Rest(t, id), id) && t.entries == s0.entries
    ensures |t.seqs[id].table| == |s0.seqs[id].table| && Caught(t.seqs[id], t.size)
  {
    RestKeepsInv(t, id);
  }

  lemma UnhashOne(s0: State, s: State, id: nat, first: nat, k: nat, end: nat)
    requires Privatizing(s0, s, id, first, k, end) && k < end
    requires s.seqs[id].table[k] < |s.blocks| && s.blocks[s.seqs[id].table[k]].refs <= 1
    ensures Privatizing(s0, Unhash(s, id), id, first, k + 1, end)
  {
    hide Inv;
    UnhashKeepsInv(s, id);
    UnhashShares(s, id);
  }

  // ----- reuse of a retained prefix

  /** Pages that reuse of a retained prefix needs: those of the prompt after it, and one for a copy of its tail
      unless a tail clone is idle. */
  function RequiredForHit(s: State, id: nat, key: Key): int
    requires s.size > 0 && id in s.seqs && key in s.entries
  {
    PagesFor(s.seqs[id].prompt, s.size) - |s.entries[key].blocks|
    + (if s.entries[key].tail > 0 && !HasIdleClone(s, key) then 1 else 0)
  }

  predicate HasIdleClone(s: State, key: Key)
    requires key in s.entries
  {
    exists c :: c in s.entries[key].clones && IsIdle(s, c)
  }

  predicate IsIdle(s: State, c: nat) { c < |s.blocks| && s.blocks[c].refs == 1 }

  /** Request id has i of n pages, and free pages for the others and `spare` more. */
  ghost predicate Filling(s0: State, s: State, id: nat, i: nat, n: nat, spare: nat) {
    && Inv(s) && OthersKept(s0, s, id) && id in s.seqs && s.seqs[id].dirty == s.seqs[id].dirtyEnd == 0
    && |s.seqs[id].table| == i <= n && n - i + spare <= |FreePages(s)|
  }

  /** The first i complete pages of the prefix were taken over. */
  ghost predicate TakenOver(s0: State, s: State, id: nat, key: Key, i: nat, n: nat, spare: int) {
    && Inv(s) && OthersKept(s0, s, id) && s.entries == s0.entries && key in s.entries
    && id in s.seqs && s.seqs[id].dirty == s.seqs[id].dirtyEnd == 0
    && |s.seqs[id].table| == i == s.seqs[id].published <= s.entries[key].full && s.seqs[id].computed == Start(i, s.size)
    && key == OwnKey(s.seqs[id]) && |s.entries[key].blocks| >= s.entries[key].full
    && spare <= |FreePages(s)|
  }

  lemma EntryPageHits(s: State, id: nat, key: Key, i: nat)
    requires Inv(s) && id in s.seqs && key in s.entries && i < |s.entries[key].blocks| && i < s.entries[key].full
    requires key == OwnKey(s.seqs[id]) && s.seqs[id].dirtyEnd == 0
    requires |s.seqs[id].table| == i == s.seqs[id].published && s.seqs[id].computed == Start(i, s.size)
    ensures Hits(s, id, s.entries[key].blocks[i]) && s.blocks[s.entries[key].blocks[i]].refs > 0
  {
    var q := s.seqs[id];
    var b := s.entries[key].blocks[i];
    OwnedEntryPage(s, key, b, OfEntry(key, i));
    assert EntryOk(s, key) && SeqOk(s, id);
    assert EntryPageOk(s.blocks[b], i, key, s.entries[key].full, s.size);
    assert key[..Start(i + 1, s.size)] == q.tokens[..Start(i + 1, s.size)];
  }

  lemma TakeOverStep(s0: State, s: State, id: nat, key: Key, i: nat, n: nat, spare: int)
    requires TakenOver(s0, s, id, key, i, n, spare) && i < s.entries[key].full
    ensures s.entries[key].blocks[i] < |s.blocks|
    ensures TakenOver(s0, AppendHit(s, id, s.entries[key].blocks[i]), id, key, i + 1, n, spare)
  {
    EntryPageHits(s, id, key, i);
    AppendHitKeepsInv(s, id, s.entries[key].blocks[i]);
    AppendHitUses(s, id, s.entries[key].blocks[i]);
  }

  lemma FillStep(s0: State, s: State, id: nat, i: nat, n: nat, spare: nat, b: nat)
    requires Filling(s0, s, id, i, n, spare) && i < n && b in FreePages(s)
    ensures Filling(s0, AppendFresh(s, id, b), id, i + 1, n, spare)
  {
    FreshPageIsOwn(s, id, b);
    AppendFreshKeepsInv(s, id, b);
    AppendFreshUsesOne(s, id, b);
  }

  /** The complete pages of the prefix were taken over; the free pages suffice for the tail as well. */
  lemma AdoptTail(s0: State, s: State, id: nat, key: Key, n: nat, c: nat)
    requires key in s.entries && TakenOver(s0, s, id, key, s.entries[key].full, n, n - s.entries[key].full - 1)
    requires c in s.entries[key].clones && IsIdle(s, c) && s.entries[key].full < n
    ensures Filling(s0, AdoptClone(s, id, key, c), id, s.entries[key].full + 1, n, 0)
  {
    assert SeqOk(s, id);
    AdoptCloneKeepsInv(s, id, key, c);
    AdoptCloneUsesNone(s, id, key, c);
  }

  /** A fresh page b receives the tail of the prefix. */
  lemma CopyTail(s: State, id: nat, key: Key, n: nat, b: nat)
    requires key in s.entries && TakenOver(s, s, id, key, s.entries[key].full, n, n - s.entries[key].full)
    requires b in FreePages(s) && s.entries[key].full < |s.entries[key].blocks|
    ensures var canonical := s.entries[key].blocks[s.entries[key].full];
            && canonical < |s.blocks| && s.entries[key].tail <= |s.blocks[canonical].rows| == |s.blocks[b].rows|
            && Loadable(AppendFresh(s, id, b), id, Copied(s.blocks[canonical], s.blocks[b], s.entries[key].tail), |key|)
  {
    var e := s.entries[key];
    var canonical := e.blocks[e.full];
    assert EntryOk(s, key) && EntryPageOk(s.blocks[canonical], e.full, key, e.full, s.size) && SeqOk(s, id);
    assert BlockOk(s.blocks[b], s.size);
    var rows := Copied(s.blocks[canonical], s.blocks[b], e.tail);
    forall r | 0 <= r < s.size && Start(e.full, s.size) + r < |key|
      ensures rows[r] == s.seqs[id].tokens[..Start(e.full, s.size) + r + 1]
    {
      assert rows[r] == s.blocks[canonical].rows[r] == key[..Start(e.full, s.size) + r + 1];
    }
  }

  /** Page b of request id is its own and holds the tail of the prefix. */
  ghost predicate HasCopy(s: State, id: nat, key: Key, b: nat) {
    && id in s.seqs && key in s.entries && s.entries[key].full < |s.seqs[id].table|
    && s.seqs[id].table[s.entries[key].full] == b < |s.blocks| && s.blocks[b].owners == {OfSeq(id, s.entries[key].full)}
    && key == OwnKey(s.seqs[id]) && s.seqs[id].computed == |key| && s.seqs[id].published == s.entries[key].full
  }

  lemma CopiedTail(s0: State, s: State, id: nat, key: Key, n: nat, b: nat, rows: seq<Key>)
    requires key in s.entries && TakenOver(s0, s, id, key, s.entries[key].full, n, n - s.entries[key].full)
    requires b in FreePages(s) && s.entries[key].full < n && Loadable(AppendFresh(s, id, b), id, rows, |key|)
    ensures Filling(s0, LoadPage(AppendFresh(s, id, b), id, rows, |key|), id, s.entries[key].full + 1, n, 0)
    ensures HasCopy(LoadPage(AppendFresh(s, id, b), id, rows, |key|), id, key, b)
  {
    hide Inv;
    FreshPageIsOwn(s, id, b);
    AppendFreshKeepsInv(s, id, b);
    AppendFreshUsesOne(s, id, b);
    var t := AppendFresh(s, id, b);
    LoadPageKeepsInv(t, id, rows, |key|);
    assert FreePages(LoadPage(t, id, rows, |key|)) == FreePages(t);
  }

  /** The copy may be kept as a tail clone for later requests. */
  lemma KeepCopy(s0: State, s: State, id: nat, key: Key, n: nat, b: nat)
    requires key in s.entries && Filling(s0, s, id, s.entries[key].full + 1, n, 0) && s.entries[key].tail > 0
    requires HasCopy(s, id, key, b)
    ensures Filling(s0, TakeClone(s, key, b), id, s.entries[key].full + 1, n, 0)
  {
    assert SeqOk(s, id) && EntryOk(s, key) && BlockOk(s.blocks[b], s.size);
    TakeCloneKeepsInv(s, id, key, b);
    TakeCloneUsesNone(s, key, b);
  }

  lemma FillingFrom(s0: State, s: State, t: State, id: nat, i: nat, n: nat)
    requires OthersKept(s0, s, id) && Filling(s, t, id, i, n, 0)
    ensures Filling(s0, t, id, i, n, 0)
  {
  }

  /** Evictions that protect the prefix leave its idle tail clones idle. */
  lemma IdleStaysIdle(s: State, t: State, key: Key, c: nat)
    requires Inv(s) && Inv(t) && Shrunk(s, t, {key}) && key in s.entries && c in s.entries[key].clones && IsIdle(s, c)
    ensures IsIdle(t, c)
  {
    assert EntryOk(s, key) && BlockOk(s.blocks[c], s.size) && BlockOk(t.blocks[c], t.size);
    assert BlockShrunk(s.blocks[c], t.blocks[c], {key});
    assert OfClone(key) in t.blocks[c].owners;
    assert t.blocks[c].refs > 0;
  }

  /** A complete page of the prefix is not an idle tail clone. */
  lemma PageIsNotIdle(s: State, key: Key, i: nat, c: nat)
    requires Inv(s) && key in s.entries && i < |s.entries[key].blocks| && c in s.entries[key].clones && IsIdle(s, c)
    ensures s.entries[key].blocks[i] != c
  {
    OwnedEntryPage(s, key, s.entries[key].blocks[i], OfEntry(key, i));
    assert EntryOk(s, key);
    var both := if s.entries[key].blocks[i] == c then {OfClone(key), OfEntry(key, i)} else {};
    assert BlockOk(s.blocks[c], s.size) && both <= s.blocks[c].owners;
    SubsetSize(both, s.blocks[c].owners);
  }

  lemma PrefixPagesFit(s: State, id: nat, key: Key)
    requires Good(s) && id in s.seqs && key in s.entries && key == OwnKey(s.seqs[id])
    ensures |s.entries[key].blocks| <= PagesFor(s.seqs[id].prompt, s.size)
    ensures RequiredForHit(s, id, key) >= 0
  {
    var e, n := s.entries[key], s.seqs[id].prompt;
    assert EntryOk(s, key) && SeqOk(s, id);
    PagesCover(n, s.size);
    FloorBelowCeil(e.full, PagesFor(n, s.size), n, s.size);
  }

  /** Whether admission of request id can succeed, in the terms the scheduler computes. */
  predicate CanAllocate(s: State, id: nat)
    requires s.size > 0 && id in s.seqs
  {
    var key := OwnKey(s.seqs[id]);
    if key in s.entries then RequiredForHit(s, id, key) <= |FreePages(s)| + |Reclaimable(s, {key})|
    else PagesFor(|s.seqs[id].tokens|, s.size) <= |FreePages(s)| + |Reclaimable(s, {})|
  }

  lemma SnapFits(size: nat, snapped: nat, computed: nat, first: nat, end: nat)
    requires size > 0 && snapped < computed == Start(end, size) && first == PageOf(snapped, size)
    ensures first < end && Start(first, size) <= snapped < Start(first + 1, size)
  {
    PageOfBounds(snapped, size);
    if end <= first { StartMonotone(end, first, size); }
  }

  lemma SharedFromLater(s: State, id: nat, first: nat)
    requires id in s.seqs
    ensures |SharedPages(s, id, first)| <= |SharedPages(s, id, 0)|
  {
    SubsetSize(SharedPages(s, id, first), SharedPages(s, id, 0));
  }
}
