/** The page-level steps out of which the block manager's operations are made, and for each of
    them a proof that it keeps the invariant of KvState. */
module KvSteps {
  import opened Paging
  import opened KvState

  function Share(b: Block, o: Owner): Block { b.(refs := b.refs + 1, owners := b.owners + {o}) }

  function Release(b: Block, o: Owner): Block
    requires b.refs > 0
  {
    b.(refs := b.refs - 1, owners := b.owners - {o})
  }

  /** The index without its entry for the hash of page b, if that entry leads to page b. */
  function Unindexed(s: State, b: nat): map<Key, nat>
    requires b < |s.blocks|
  {
    var h := s.blocks[b].hash;
    if h in s.index && s.index[h] == b then s.index - {h} else s.index
  }

  function WithBlock(s: State, b: nat, block: Block): State
    requires b < |s.blocks|
  {
    s.(blocks := s.blocks[b := block])
  }

  function WithSeq(s: State, id: nat, q: Sequence): State { s.(seqs := s.seqs[id := q]) }

  function WithEntry(s: State, key: Key, e: Entry): State { s.(entries := s.entries[key := e]) }

  lemma SeqIsOk(s: State, id: nat)
    requires Inv(s) && id in s.seqs
    ensures SeqOk(s, id)
  {
  }

  // ----- one request changes some pages

  /** Request id changed itself and the pages in `pages`, nothing else. */
  ghost predicate OnlyBy(s: State, t: State, id: nat, pages: set<nat>) {
    && t.size == s.size && |t.blocks| == |s.blocks| && t.entries == s.entries
    && (forall i :: 0 <= i < |s.blocks| && i !in pages ==> t.blocks[i] == s.blocks[i])
    && t.seqs.Keys == s.seqs.Keys
    && (forall j :: j in s.seqs && j != id ==> t.seqs[j] == s.seqs[j])
  }

  /** The claim that owner o has on page content still holds for the new page. */
  ghost predicate ClaimOk(s: State, block: Block, o: Owner) {
    match o
    case OfSeq(j, k) => j in s.seqs && PageOk(block, k, j, s.seqs[j], s.entries, s.size)
    case OfEntry(key, k) => key in s.entries && EntryPageOk(block, k, key, s.entries[key].full, s.size)
    case OfClone(key) => key in s.entries && CloneOk(block, key, s.entries[key].full, s.size)
  }

  /** What a step has to show about a page it changed: the page is in order, the claims of all
      other owners survive, and its owners really hold it. */
  ghost predicate PageStep(s: State, t: State, id: nat, b: nat) {
    && b < |s.blocks| == |t.blocks|
    && BlockOk(t.blocks[b], s.size)
    && (forall o :: o in s.blocks[b].owners && !(o.OfSeq? && o.id == id) ==> ClaimOk(s, t.blocks[b], o))
    && (forall o :: o in t.blocks[b].owners ==> Held(t, b, o))
  }

  lemma OtherSeqKept(s: State, t: State, id: nat, pages: set<nat>, j: nat)
    requires OnlyBy(s, t, id, pages) && j in s.seqs && j != id && SeqOk(s, j)
    requires forall b :: b in pages ==> PageStep(s, t, id, b)
    ensures SeqOk(t, j)
  {
    var q := s.seqs[j];
    forall k | 0 <= k < |q.table| ensures PageOk(t.blocks[q.table[k]], k, j, q, t.entries, t.size) {
      assert PageOk(s.blocks[q.table[k]], k, j, q, s.entries, s.size);
      if q.table[k] in pages {
        assert ClaimOk(s, t.blocks[q.table[k]], OfSeq(j, k));
      }
    }
  }

  lemma EntryKept(s: State, t: State, id: nat, pages: set<nat>, key: Key)
    requires OnlyBy(s, t, id, pages) && key in s.entries && EntryOk(s, key)
    requires forall b :: b in pages ==> PageStep(s, t, id, b)
    ensures EntryOk(t, key)
  {
    var e := s.entries[key];
    forall k | 0 <= k < |e.blocks| ensures EntryPageOk(t.blocks[e.blocks[k]], k, key, e.full, t.size) {
      assert EntryPageOk(s.blocks[e.blocks[k]], k, key, e.full, s.size);
      if e.blocks[k] in pages {
        assert ClaimOk(s, t.blocks[e.blocks[k]], OfEntry(key, k));
      }
    }
    forall c | c in e.clones ensures CloneOk(t.blocks[c], key, e.full, t.size) {
      assert CloneOk(s.blocks[c], key, e.full, s.size);
      if c in pages {
        assert ClaimOk(s, t.blocks[c], OfClone(key));
      }
    }
  }

  /** Pages that a request gave up are among the changed ones. */
  ghost predicate TableStep(s: State, t: State, id: nat, pages: set<nat>)
    requires id in s.seqs && id in t.seqs
  {
    forall k :: 0 <= k < |s.seqs[id].table| && s.seqs[id].table[k] !in pages ==>
      k < |t.seqs[id].table| && t.seqs[id].table[k] == s.seqs[id].table[k]
  }

  lemma OwnersKept(s: State, t: State, id: nat, pages: set<nat>)
    requires OnlyBy(s, t, id, pages) && OwnersHold(s) && id in s.seqs && TableStep(s, t, id, pages)
    requires forall b :: b in pages ==> PageStep(s, t, id, b)
    ensures OwnersHold(t)
  {
    forall i, o | 0 <= i < |t.blocks| && o in t.blocks[i].owners ensures Held(t, i, o) {
      if i in pages {
        assert PageStep(s, t, id, i);
      } else {
        assert Held(s, i, o);
      }
    }
  }

  lemma SeqStepKeepsInv(s: State, t: State, id: nat, pages: set<nat>)
    requires Inv(s) && OnlyBy(s, t, id, pages) && id in s.seqs && TableStep(s, t, id, pages)
    requires forall b :: b in pages ==> PageStep(s, t, id, b)
    requires IndexOk(t) && SeqOk(t, id)
    ensures Inv(t)
  {
    forall j | j in t.seqs ensures SeqOk(t, j) {
      assert SeqOk(s, j);
      if j != id { OtherSeqKept(s, t, id, pages, j); }
    }
    forall key | key in t.entries ensures EntryOk(t, key) {
      assert EntryOk(s, key);
      EntryKept(s, t, id, pages, key);
    }
    OwnersKept(s, t, id, pages);
    forall i | 0 <= i < |t.blocks| ensures BlockOk(t.blocks[i], t.size) {
      if i in pages { assert PageStep(s, t, id, i); }
    }
  }

  /** A page that loses its hash also loses its entry in the index. */
  lemma UnindexedOk(s: State, t: State, b: nat)
    requires IndexOk(s) && b < |s.blocks| == |t.blocks| && t.index == Unindexed(s, b)
    requires forall i :: 0 <= i < |s.blocks| && i != b ==> t.blocks[i].hash == s.blocks[i].hash
    ensures IndexOk(t)
  {
  }

  // ----- steps of a page table

  /** Page b, unreferenced, becomes the next page of a request: no hash, contents as they were. */
  function AppendFresh(s: State, id: nat, b: nat): State
    requires id in s.seqs && b < |s.blocks|
  {
    var q := s.seqs[id];
    var t := WithBlock(s, b, Block(1, [], {OfSeq(id, |q.table|)}, s.blocks[b].rows)).(index := Unindexed(s, b));
    WithSeq(t, id, q.(table := q.table + [b]))
  }

  lemma FreshPageIsOwn(s: State, id: nat, b: nat)
    requires Inv(s) && id in s.seqs && b < |s.blocks| && s.blocks[b].refs == 0
    ensures s.blocks[b].owners == {} && b !in s.seqs[id].table
    ensures PageStep(s, AppendFresh(s, id, b), id, b)
  {
    assert BlockOk(s.blocks[b], s.size) && SeqOk(s, id);
    var q := s.seqs[id];
    forall k | 0 <= k < |q.table| ensures q.table[k] != b {
      assert PageOk(s.blocks[q.table[k]], k, id, q, s.entries, s.size);
    }
  }

  lemma AppendFreshSeqOk(s: State, id: nat, b: nat)
    requires id in s.seqs && SeqOk(s, id) && s.size > 0 && b < |s.blocks| && |s.blocks[b].rows| == s.size
    requires s.seqs[id].dirtyEnd <= |s.seqs[id].table| && b !in s.seqs[id].table
    ensures SeqOk(AppendFresh(s, id, b), id)
  {
    var t := AppendFresh(s, id, b);
    var q := s.seqs[id];
    StartMonotone(|q.table|, |q.table| + 1, s.size);
    forall k | 0 <= k < |q.table| ensures PageOk(t.blocks[q.table[k]], k, id, t.seqs[id], t.entries, t.size) {
      assert PageOk(s.blocks[q.table[k]], k, id, q, s.entries, s.size);
    }
  }

  lemma AppendFreshKeepsInv(s: State, id: nat, b: nat)
    requires Inv(s) && id in s.seqs && b < |s.blocks| && s.blocks[b].refs == 0
    requires s.seqs[id].dirtyEnd <= |s.seqs[id].table|
    ensures Inv(AppendFresh(s, id, b))
  {
    FreshPageIsOwn(s, id, b);
    assert BlockOk(s.blocks[b], s.size) && SeqOk(s, id);
    AppendFreshSeqOk(s, id, b);
    UnindexedOk(s, AppendFresh(s, id, b), b);
    SeqStepKeepsInv(s, AppendFresh(s, id, b), id, {b});
  }

  /** A hit: the request takes a reference to page b as its next page, already computed. */
  function AppendHit(s: State, id: nat, b: nat): State
    requires id in s.seqs && b < |s.blocks|
  {
    var q := s.seqs[id];
    WithSeq(WithBlock(s, b, Share(s.blocks[b], OfSeq(id, |q.table|))), id,
            q.(table := q.table + [b], computed := q.computed + s.size, published := q.published + 1))
  }

  /** What a hit needs: the hash of page b is the history up to the end of the next page. */
  ghost predicate Hits(s: State, id: nat, b: nat)
    requires id in s.seqs
  {
    var q := s.seqs[id];
    && b < |s.blocks|
    && q.dirtyEnd <= |q.table| == q.published && q.computed == Start(|q.table|, s.size)
    && Start(|q.table| + 1, s.size) <= |q.tokens|
    && s.blocks[b].hash == q.tokens[..Start(|q.table| + 1, s.size)]
  }

  lemma HitPageStep(s: State, id: nat, b: nat)
    requires Inv(s) && id in s.seqs && Hits(s, id, b)
    ensures PageStep(s, AppendHit(s, id, b), id, b)
  {
    var t := AppendHit(s, id, b);
    var o := OfSeq(id, |s.seqs[id].table|);
    assert BlockOk(s.blocks[b], s.size);
    assert o in s.blocks[b].owners ==> Held(s, b, o);
    forall p | p in s.blocks[b].owners && !(p.OfSeq? && p.id == id) ensures ClaimOk(s, t.blocks[b], p) {
      ClaimOfOwner(s, b, p);
    }
    forall p | p in t.blocks[b].owners ensures Held(t, b, p) {
      if p != o { assert Held(s, b, p); }
    }
  }

  lemma HitRows(b: Block, tokens: Key, k: nat, size: nat)
    requires BlockOk(b, size) && size > 0 && Start(k + 1, size) <= |tokens| && b.hash == tokens[..Start(k + 1, size)]
    ensures RowsHold(b, k, tokens, Start(k + 1, size), size)
  {
    forall r | 0 <= r < size ensures b.rows[r] == tokens[..Start(k, size) + r + 1] {
      assert b.rows[r] == b.hash[..|b.hash| - size + r + 1];
    }
  }

  lemma AppendHitSeqOk(s: State, id: nat, b: nat)
    requires id in s.seqs && SeqOk(s, id) && Hits(s, id, b) && s.size > 0 && BlockOk(s.blocks[b], s.size)
    ensures SeqOk(AppendHit(s, id, b), id)
  {
    var t := AppendHit(s, id, b);
    var q := s.seqs[id];
    HitRows(s.blocks[b], q.tokens, |q.table|, s.size);
    forall k | 0 <= k < |q.table| ensures PageOk(t.blocks[q.table[k]], k, id, t.seqs[id], t.entries, t.size) {
      assert PageOk(s.blocks[q.table[k]], k, id, q, s.entries, s.size);
      StartMonotone(k + 1, |q.table|, s.size);
    }
  }

  lemma AppendHitKeepsInv(s: State, id: nat, b: nat)
    requires Inv(s) && id in s.seqs && Hits(s, id, b)
    ensures Inv(AppendHit(s, id, b))
  {
    HitPageStep(s, id, b);
    assert BlockOk(s.blocks[b], s.size) && SeqOk(s, id);
    AppendHitSeqOk(s, id, b);
    SeqStepKeepsInv(s, AppendHit(s, id, b), id, {b});
  }

  /** Every owner's claim holds as long as its page is not touched. */
  lemma ClaimOfOwner(s: State, b: nat, o: Owner)
    requires Inv(s) && b < |s.blocks| && o in s.blocks[b].owners
    ensures ClaimOk(s, s.blocks[b], o)
  {
    assert Held(s, b, o);
    match o
    case OfSeq(j, k) => assert SeqOk(s, j);
    case OfEntry(key, k) => assert EntryOk(s, key);
    case OfClone(key) => assert EntryOk(s, key);
  }

  /** Give up the last page of a request. */
  function PopPage(s: State, id: nat): State
    requires id in s.seqs && s.seqs[id].table != []
    requires var q := s.seqs[id]; q.table[|q.table| - 1] < |s.blocks| && s.blocks[q.table[|q.table| - 1]].refs > 0
  {
    var q := s.seqs[id];
    var k := |q.table| - 1;
    var t := WithBlock(s, q.table[k], Release(s.blocks[q.table[k]], OfSeq(id, k)));
    WithSeq(t, id, q.(table := q.table[..k],
                      computed := if q.computed <= Start(k, s.size) then q.computed else Start(k, s.size),
                      published := if q.published <= k then q.published else k))
  }

  ghost predicate Settled(s: State, id: nat)
    requires id in s.seqs
  {
    s.seqs[id].dirty >= s.seqs[id].dirtyEnd
  }

  lemma OwnedPage(s: State, id: nat, k: nat)
    requires Inv(s) && id in s.seqs && k < |s.seqs[id].table|
    ensures var b := s.seqs[id].table[k];
            b < |s.blocks| && BlockOk(s.blocks[b], s.size) && s.blocks[b].refs > 0
            && PageOk(s.blocks[b], k, id, s.seqs[id], s.entries, s.size)
  {
    assert SeqOk(s, id);
    var b := s.seqs[id].table[k];
    assert OfSeq(id, k) in s.blocks[b].owners && BlockOk(s.blocks[b], s.size);
    assert |s.blocks[b].owners| > 0;
  }

  lemma ReleasePageStep(s: State, t: State, id: nat, k: nat)
    requires Inv(s) && id in s.seqs && id in t.seqs && k < |s.seqs[id].table|
    requires s.seqs[id].table[k] < |s.blocks| == |t.blocks|
    requires t.entries == s.entries
    requires var b := s.seqs[id].table[k]; s.blocks[b].refs > 0 && t.blocks[b] == Release(s.blocks[b], OfSeq(id, k))
    requires forall j :: j in s.seqs && j != id ==> j in t.seqs && t.seqs[j] == s.seqs[j]
    requires forall i :: 0 <= i < |s.seqs[id].table| && i != k ==>
               i < |t.seqs[id].table| && t.seqs[id].table[i] == s.seqs[id].table[i]
    ensures PageStep(s, t, id, s.seqs[id].table[k])
  {
    var b := s.seqs[id].table[k];
    OwnedPage(s, id, k);
    forall o | o in s.blocks[b].owners && !(o.OfSeq? && o.id == id) ensures ClaimOk(s, t.blocks[b], o) {
      ClaimOfOwner(s, b, o);
    }
    forall o | o in t.blocks[b].owners ensures Held(t, b, o) {
      assert Held(s, b, o);
    }
  }

  /** A request that keeps page k entirely computed, or not further computed than before, leaves the
      page private. */
  lemma PrivateAfterCut(s: State, b: Block, k: nat, id: nat, done: int, left: int, own: Key)
    requires Private(b, k, id, s.entries, done, own) && (left >= done || left >= s.size)
    requires forall key :: key in s.entries ==> s.entries[key].tail < s.size
    ensures Private(b, k, id, s.entries, left, own)
  {
  }

  lemma TailsShort(s: State)
    requires Inv(s)
    ensures forall key :: key in s.entries ==> s.entries[key].tail < s.size
  {
    forall key | key in s.entries ensures s.entries[key].tail < s.size {
      assert EntryOk(s, key);
    }
  }

  lemma PopPageKeepsPage(s: State, b: Block, c: Block, id: nat, k: nat)
    requires id in s.seqs && k < |s.seqs[id].table| - 1 && Settled(s, id)
    requires PageOk(b, k, id, s.seqs[id], s.entries, s.size)
    requires c.hash == b.hash && c.rows == b.rows && OfSeq(id, k) in c.owners && c.owners <= b.owners
    requires Start(k + 1, s.size) <= Start(|s.seqs[id].table| - 1, s.size)
    requires s.seqs[id].table[|s.seqs[id].table| - 1] < |s.blocks|
    requires s.blocks[s.seqs[id].table[|s.seqs[id].table| - 1]].refs > 0
    requires forall key :: key in s.entries ==> s.entries[key].tail < s.size
    ensures PageOk(c, k, id, PopPage(s, id).seqs[id], s.entries, s.size)
  {
    var q := s.seqs[id];
    if k >= q.published {
      PrivateAfterCut(s, b, k, id, q.computed - Start(k, s.size), PopPage(s, id).seqs[id].computed - Start(k, s.size),
        OwnKey(q));
    }
  }

  lemma PopPageSeqOk(s: State, id: nat)
    requires id in s.seqs && SeqOk(s, id) && Settled(s, id) && s.seqs[id].table != []
    requires s.blocks[s.seqs[id].table[|s.seqs[id].table| - 1]].refs > 0
    requires forall key :: key in s.entries ==> s.entries[key].tail < s.size
    ensures SeqOk(PopPage(s, id), id)
  {
    var t := PopPage(s, id);
    var q := s.seqs[id];
    var last := |q.table| - 1;
    assert t.seqs[id].table == q.table[..last];
    forall k | 0 <= k < last ensures PageOk(t.blocks[q.table[k]], k, id, t.seqs[id], t.entries, t.size) {
      assert PageOk(s.blocks[q.table[k]], k, id, q, s.entries, s.size);
      StartMonotone(k + 1, last, s.size);
      PopPageKeepsPage(s, s.blocks[q.table[k]], t.blocks[q.table[k]], id, k);
    }
  }

  lemma PopPageOnly(s: State, id: nat, k: nat)
    requires BlocksOk(s) && id in s.seqs && k + 1 == |s.seqs[id].table|
    requires s.seqs[id].table[k] < |s.blocks| && s.blocks[s.seqs[id].table[k]].refs > 0
    ensures OnlyBy(s, PopPage(s, id), id, {s.seqs[id].table[k]})
    ensures TableStep(s, PopPage(s, id), id, {s.seqs[id].table[k]})
    ensures IndexOk(PopPage(s, id))
    ensures PopPage(s, id).blocks[s.seqs[id].table[k]] == Release(s.blocks[s.seqs[id].table[k]], OfSeq(id, k))
    ensures PopPage(s, id).seqs[id].table == s.seqs[id].table[..k]
  {
  }

  lemma PopPageKeepsInv(s: State, id: nat)
    requires Inv(s) && id in s.seqs && s.seqs[id].table != [] && Settled(s, id)
    ensures var q := s.seqs[id]; q.table[|q.table| - 1] < |s.blocks| && s.blocks[q.table[|q.table| - 1]].refs > 0
    ensures Inv(PopPage(s, id))
  {
    var k := |s.seqs[id].table| - 1;
    OwnedPage(s, id, k);
    TailsShort(s);
    assert SeqOk(s, id);
    PopPageOnly(s, id, k);
    ReleasePageStep(s, PopPage(s, id), id, k);
    PopPageSeqOk(s, id);
    SeqStepKeepsInv(s, PopPage(s, id), id, {s.seqs[id].table[k]});
  }

  // ----- computing and publishing

  /** The model computes the next row of a request: row r of page k. */
  function WriteRow(s: State, id: nat, k: nat, r: nat): State
    requires id in s.seqs && k < |s.seqs[id].table| && s.seqs[id].table[k] < |s.blocks|
    requires r < |s.blocks[s.seqs[id].table[k]].rows| && s.seqs[id].computed < |s.seqs[id].tokens|
  {
    var q := s.seqs[id];
    var block := s.blocks[q.table[k]];
    var t := WithBlock(s, q.table[k], block.(rows := block.rows[r := q.tokens[..q.computed + 1]]));
    WithSeq(t, id, q.(computed := q.computed + 1))
  }

  /** Row r of page k is the next one to compute. */
  ghost predicate NextRow(s: State, id: nat, k: nat, r: nat)
    requires id in s.seqs
  {
    var q := s.seqs[id];
    Settled(s, id) && k < |q.table| && r < s.size && Start(k, s.size) + r == q.computed < |q.tokens|
  }

  lemma WriteRowPrivate(s: State, id: nat, k: nat, r: nat)
    requires Inv(s) && id in s.seqs && NextRow(s, id, k, r)
    ensures s.seqs[id].table[k] < |s.blocks|
    ensures Private(s.blocks[s.seqs[id].table[k]], k, id, s.entries, r, OwnKey(s.seqs[id])) && s.seqs[id].published <= k
    ensures forall i :: 0 <= i < |s.seqs[id].table| && i != k ==> s.seqs[id].table[i] != s.seqs[id].table[k]
  {
    OwnedPage(s, id, k);
    forall i | 0 <= i < |s.seqs[id].table| && i != k ensures s.seqs[id].table[i] != s.seqs[id].table[k] {
      OwnedPage(s, id, i);
    }
  }

  lemma WriteRowClaim(s: State, id: nat, k: nat, r: nat, o: Owner)
    requires Inv(s) && id in s.seqs && NextRow(s, id, k, r)
    requires s.seqs[id].table[k] < |s.blocks| && o in s.blocks[s.seqs[id].table[k]].owners && o != OfSeq(id, k)
    requires NeedsOnly(o, s.entries, r, OwnKey(s.seqs[id])) && |s.blocks[s.seqs[id].table[k]].rows| == s.size
    ensures ClaimOk(s, WriteRow(s, id, k, r).blocks[s.seqs[id].table[k]], o)
  {
    ClaimOfOwner(s, s.seqs[id].table[k], o);
    assert EntryOk(s, o.key);
  }

  lemma WriteRowPageStep(s: State, id: nat, k: nat, r: nat)
    requires Inv(s) && id in s.seqs && NextRow(s, id, k, r)
    ensures s.seqs[id].table[k] < |s.blocks| && r < |s.blocks[s.seqs[id].table[k]].rows|
    ensures PageStep(s, WriteRow(s, id, k, r), id, s.seqs[id].table[k])
  {
    WriteRowPrivate(s, id, k, r);
    var b := s.seqs[id].table[k];
    assert BlockOk(s.blocks[b], s.size);
    var t := WriteRow(s, id, k, r);
    forall o | o in s.blocks[b].owners && !(o.OfSeq? && o.id == id) ensures ClaimOk(s, t.blocks[b], o) {
      WriteRowClaim(s, id, k, r, o);
    }
    forall o | o in t.blocks[b].owners ensures Held(t, b, o) {
      assert Held(s, b, o);
    }
  }

  /** One more computed row does not touch a page that is computed entirely or not at all. */
  lemma OtherPageKept(b: Block, i: nat, id: nat, q: Sequence, entries: map<Key, Entry>, size: nat)
    requires PageOk(b, i, id, q, entries, size) && q.computed < |q.tokens|
    requires Start(i + 1, size) <= q.computed || q.computed + 1 <= Start(i, size)
    ensures PageOk(b, i, id, q.(computed := q.computed + 1), entries, size)
  {
  }

  lemma WrittenPageOk(b: Block, k: nat, r: nat, id: nat, q: Sequence, entries: map<Key, Entry>, size: nat)
    requires PageOk(b, k, id, q, entries, size) && q.published <= k
    requires r < size && Start(k, size) + r == q.computed < |q.tokens|
    ensures PageOk(b.(rows := b.rows[r := q.tokens[..q.computed + 1]]), k, id, q.(computed := q.computed + 1), entries,
            size)
  {
  }

  lemma WriteRowSeqOk(s: State, id: nat, k: nat, r: nat)
    requires id in s.seqs && SeqOk(s, id) && NextRow(s, id, k, r) && s.seqs[id].published <= k
    requires |s.blocks[s.seqs[id].table[k]].rows| == s.size
    requires forall i :: 0 <= i < |s.seqs[id].table| && i != k ==> s.seqs[id].table[i] != s.seqs[id].table[k]
    ensures SeqOk(WriteRow(s, id, k, r), id)
  {
    hide PageOk;
    var t := WriteRow(s, id, k, r);
    var q := s.seqs[id];
    StartMonotone(k + 1, |q.table|, s.size);
    WrittenPageOk(s.blocks[q.table[k]], k, r, id, q, s.entries, s.size);
    forall i | 0 <= i < |q.table| && i != k ensures PageOk(t.blocks[q.table[i]], i, id, t.seqs[id], t.entries, t.size) {
      if i < k { StartMonotone(i + 1, k, s.size); }
      if i > k { StartMonotone(k + 1, i, s.size); }
      OtherPageKept(s.blocks[q.table[i]], i, id, q, s.entries, s.size);
    }
  }

  lemma WriteRowKeepsInv(s: State, id: nat, k: nat, r: nat)
    requires Inv(s) && id in s.seqs && NextRow(s, id, k, r)
    ensures s.seqs[id].table[k] < |s.blocks| && r < |s.blocks[s.seqs[id].table[k]].rows|
    ensures Inv(WriteRow(s, id, k, r))
  {
    WriteRowPrivate(s, id, k, r);
    WriteRowPageStep(s, id, k, r);
    assert SeqOk(s, id) && BlockOk(s.blocks[s.seqs[id].table[k]], s.size);
    WriteRowSeqOk(s, id, k, r);
    SeqStepKeepsInv(s, WriteRow(s, id, k, r), id, {s.seqs[id].table[k]});
  }

  // ----- writing past missing rows

  /** The model writes row r of page k, a position after the computed ones: whatever it makes of a history
      with missing rows.  Nothing more counts as computed. */
  function WriteAhead(s: State, id: nat, k: nat, r: nat, row: Key): State
    requires id in s.seqs && k < |s.seqs[id].table| && s.seqs[id].table[k] < |s.blocks|
    requires r < |s.blocks[s.seqs[id].table[k]].rows|
  {
    var b := s.seqs[id].table[k];
    WithBlock(s, b, s.blocks[b].(rows := s.blocks[b].rows[r := row]))
  }

  ghost predicate RowAhead(s: State, id: nat, k: nat, r: nat)
    requires id in s.seqs
  {
    var q := s.seqs[id];
    Settled(s, id) && q.published <= k < |q.table| && r < s.size && q.computed <= Start(k, s.size) + r
  }

  lemma WriteAheadPageStep(s: State, id: nat, k: nat, r: nat, row: Key)
    requires Inv(s) && id in s.seqs && RowAhead(s, id, k, r)
    ensures s.seqs[id].table[k] < |s.blocks| && r < |s.blocks[s.seqs[id].table[k]].rows|
    ensures PageStep(s, WriteAhead(s, id, k, r, row), id, s.seqs[id].table[k])
    ensures forall i :: 0 <= i < |s.seqs[id].table| && i != k ==> s.seqs[id].table[i] != s.seqs[id].table[k]
  {
    OwnedPage(s, id, k);
    var b := s.seqs[id].table[k];
    var t := WriteAhead(s, id, k, r, row);
    forall o | o in s.blocks[b].owners && !(o.OfSeq? && o.id == id) ensures ClaimOk(s, t.blocks[b], o) {
      ClaimOfOwner(s, b, o);
      assert EntryOk(s, o.key);
    }
    forall o | o in t.blocks[b].owners ensures Held(t, b, o) {
      assert Held(s, b, o);
    }
    forall i | 0 <= i < |s.seqs[id].table| && i != k ensures s.seqs[id].table[i] != s.seqs[id].table[k] {
      OwnedPage(s, id, i);
    }
  }

  lemma WriteAheadSeqOk(s: State, id: nat, k: nat, r: nat, row: Key)
    requires id in s.seqs && SeqOk(s, id) && RowAhead(s, id, k, r)
    requires |s.blocks[s.seqs[id].table[k]].rows| == s.size
    requires forall i :: 0 <= i < |s.seqs[id].table| && i != k ==> s.seqs[id].table[i] != s.seqs[id].table[k]
    ensures SeqOk(WriteAhead(s, id, k, r, row), id)
  {
    var q, t := s.seqs[id], WriteAhead(s, id, k, r, row);
    forall i | 0 <= i < |q.table| ensures PageOk(t.blocks[q.table[i]], i, id, q, t.entries, t.size) {
      assert PageOk(s.blocks[q.table[i]], i, id, q, s.entries, s.size);
    }
  }

  lemma WriteAheadKeepsInv(s: State, id: nat, k: nat, r: nat, row: Key)
    requires Inv(s) && id in s.seqs && RowAhead(s, id, k, r)
    ensures s.seqs[id].table[k] < |s.blocks| && r < |s.blocks[s.seqs[id].table[k]].rows|
    ensures Inv(WriteAhead(s, id, k, r, row))
  {
    WriteAheadPageStep(s, id, k, r, row);
    OwnedPage(s, id, k);
    SeqIsOk(s, id);
    WriteAheadSeqOk(s, id, k, r, row);
    SeqStepKeepsInv(s, WriteAhead(s, id, k, r, row), id, {s.seqs[id].table[k]});
  }

  /** The model writes over row r of page k, which was computed: the history is there only up to that row. */
  function WriteOver(s: State, id: nat, k: nat, r: nat, row: Key): State
    requires id in s.seqs && k < |s.seqs[id].table| && s.seqs[id].table[k] < |s.blocks|
    requires r < |s.blocks[s.seqs[id].table[k]].rows|
  {
    WithSeq(WriteAhead(s, id, k, r, row), id, s.seqs[id].(computed := Start(k, s.size) + r))
  }

  /** Page k is the last one, not published, and nobody else holds it. */
  ghost predicate RowOver(s: State, id: nat, k: nat, r: nat)
    requires id in s.seqs
  {
    var q := s.seqs[id];
    && Settled(s, id) && q.published == k && |q.table| == k + 1 && r < s.size && Start(k, s.size) + r < q.computed
    && q.table[k] < |s.blocks| && s.blocks[q.table[k]].owners == {OfSeq(id, k)}
  }

  lemma OverwrittenPageOk(b: Block, k: nat, r: nat, row: Key, id: nat, q: Sequence, entries: map<Key, Entry>, size: nat)
    requires PageOk(b, k, id, q, entries, size) && q.published == k && b.owners == {OfSeq(id, k)} && b.hash == []
    requires r < size && Start(k, size) + r < q.computed && q.computed <= |q.tokens|
    ensures PageOk(b.(rows := b.rows[r := row]), k, id, q.(computed := Start(k, size) + r), entries, size)
  {
  }

  lemma PublishedPageKept(b: Block, i: nat, id: nat, q: Sequence, done: nat, entries: map<Key, Entry>, size: nat)
    requires PageOk(b, i, id, q, entries, size) && i < q.published && Start(i + 1, size) <= done <= q.computed
    ensures PageOk(b, i, id, q.(computed := done), entries, size)
  {
  }

  lemma WriteOverSeqOk(s: State, id: nat, k: nat, r: nat, row: Key)
    requires id in s.seqs && SeqOk(s, id) && RowOver(s, id, k, r) && s.blocks[s.seqs[id].table[k]].hash == []
    requires r < |s.blocks[s.seqs[id].table[k]].rows|
    requires forall i :: 0 <= i < k ==> s.seqs[id].table[i] != s.seqs[id].table[k]
    ensures SeqOk(WriteOver(s, id, k, r, row), id)
  {
    hide PageOk;
    var q, t := s.seqs[id], WriteOver(s, id, k, r, row);
    OverwrittenPageOk(s.blocks[q.table[k]], k, r, row, id, q, s.entries, s.size);
    forall i | 0 <= i < k ensures PageOk(t.blocks[q.table[i]], i, id, t.seqs[id], t.entries, t.size) {
      StartMonotone(i + 1, k, s.size);
      PublishedPageKept(s.blocks[q.table[i]], i, id, q, Start(k, s.size) + r, s.entries, s.size);
    }
  }

  lemma WriteOverAlone(s: State, id: nat, k: nat, r: nat)
    requires Inv(s) && id in s.seqs && RowOver(s, id, k, r)
    ensures BlockOk(s.blocks[s.seqs[id].table[k]], s.size) && s.blocks[s.seqs[id].table[k]].hash == []
    ensures forall i :: 0 <= i < k ==> s.seqs[id].table[i] != s.seqs[id].table[k]
  {
    OwnedPage(s, id, k);
    forall i | 0 <= i < k ensures s.seqs[id].table[i] != s.seqs[id].table[k] {
      OwnedPage(s, id, i);
    }
  }

  lemma WriteOverKeepsInv(s: State, id: nat, k: nat, r: nat, row: Key)
    requires Inv(s) && id in s.seqs && RowOver(s, id, k, r)
    ensures r < |s.blocks[s.seqs[id].table[k]].rows|
    ensures Inv(WriteOver(s, id, k, r, row))
  {
    WriteOverAlone(s, id, k, r);
    SeqIsOk(s, id);
    WriteOverSeqOk(s, id, k, r, row);
    assert PageStep(s, WriteOver(s, id, k, r, row), id, s.seqs[id].table[k]) by {
      assert Held(s, s.seqs[id].table[k], OfSeq(id, k));
    }
    SeqStepKeepsInv(s, WriteOver(s, id, k, r, row), id, {s.seqs[id].table[k]});
  }

  lemma PublishedHash(s: State, id: nat, k: nat)
    requires Inv(s) && id in s.seqs && k < s.seqs[id].published
    ensures k < |s.seqs[id].table| && s.seqs[id].table[k] < |s.blocks|
    ensures Start(k + 1, s.size) <= |s.seqs[id].tokens|
    ensures var b := s.blocks[s.seqs[id].table[k]];
            |b.rows| == s.size && b.hash == s.seqs[id].tokens[..Start(k + 1, s.size)]
  {
    hide Inv;
    SeqIsOk(s, id);
    OwnedPage(s, id, k);
  }

  /** A row written to a published page, longer than the one that belongs there, gives that page away under
      a hash that does not tell what it holds. */
  lemma StrayWriteBreaks(s: State, id: nat, k: nat, r: nat, row: Key)
    requires Inv(s) && id in s.seqs && k < s.seqs[id].published && r < s.size && |row| > Start(k, s.size) + r + 1
    ensures k < |s.seqs[id].table| && s.seqs[id].table[k] < |s.blocks|
    ensures var b := s.seqs[id].table[k];
            && r < |s.blocks[b].rows| && s.size <= |s.blocks[b].hash|
            && var t := WriteAhead(s, id, k, r, row).blocks[b];
               && t.hash == s.blocks[b].hash && t.rows[r] != t.hash[..|t.hash| - s.size + r + 1]
               && !Inv(WriteAhead(s, id, k, r, row))
  {
    hide SeqOk, EntryOk, OwnersHold, IndexOk, Private, RowsHold;
    PublishedHash(s, id, k);
    var b := s.seqs[id].table[k];
    var t := WriteAhead(s, id, k, r, row);
    assert |t.blocks[b].hash[..|t.blocks[b].hash| - s.size + r + 1]| == Start(k, s.size) + r + 1;
    assert t.blocks[b].rows[r] == row && |t.blocks[b].hash| > 0;
    assert !BlockOk(t.blocks[b], s.size);
  }
}
