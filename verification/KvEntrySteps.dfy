/** The steps of the retained prefix entries: taking and giving up pages and tail clones, each with
    a proof that the invariant of KvState is kept. */
module KvEntrySteps {
  import opened Paging
  import opened KvState
  import opened KvSteps

  // ----- one entry changes

  /** Only the page lists of entry `key` and the pages in `pages` changed. */
  ghost predicate OnlyByEntry(s: State, t: State, key: Key, pages: set<nat>) {
    && t.size == s.size && |t.blocks| == |s.blocks| && t.seqs == s.seqs && t.index == s.index
    && (forall i :: 0 <= i < |s.blocks| && i !in pages ==> t.blocks[i] == s.blocks[i])
    && (forall i :: 0 <= i < |s.blocks| ==> t.blocks[i].hash == s.blocks[i].hash)
    && key in s.entries && t.entries.Keys == s.entries.Keys
    && (forall j :: j in s.entries && j != key ==> t.entries[j] == s.entries[j])
    && t.entries[key].full == s.entries[key].full && t.entries[key].tail == s.entries[key].tail
  }

  predicate Of(o: Owner, key: Key) { !o.OfSeq? && o.key == key }

  ghost predicate EntryPageStep(s: State, t: State, key: Key, b: nat) {
    && b < |s.blocks| == |t.blocks|
    && BlockOk(t.blocks[b], s.size)
    && (forall o :: o in s.blocks[b].owners && !Of(o, key) ==> ClaimOk(t, t.blocks[b], o))
    && (forall o :: o in t.blocks[b].owners ==> Held(t, b, o))
  }

  lemma SeqKept(s: State, t: State, key: Key, pages: set<nat>, j: nat)
    requires OnlyByEntry(s, t, key, pages) && j in s.seqs && SeqOk(s, j)
    requires forall b :: b in pages ==> EntryPageStep(s, t, key, b)
    ensures SeqOk(t, j)
  {
    var q := s.seqs[j];
    forall k | 0 <= k < |q.table| ensures PageOk(t.blocks[q.table[k]], k, j, q, t.entries, t.size) {
      assert PageOk(s.blocks[q.table[k]], k, j, q, s.entries, s.size);
      if q.table[k] in pages {
        assert ClaimOk(t, t.blocks[q.table[k]], OfSeq(j, k));
      }
    }
  }

  lemma OtherEntryKept(s: State, t: State, key: Key, pages: set<nat>, j: Key)
    requires OnlyByEntry(s, t, key, pages) && j in s.entries && j != key && EntryOk(s, j)
    requires forall b :: b in pages ==> EntryPageStep(s, t, key, b)
    ensures EntryOk(t, j)
  {
    var e := s.entries[j];
    forall k | 0 <= k < |e.blocks| ensures EntryPageOk(t.blocks[e.blocks[k]], k, j, e.full, t.size) {
      assert EntryPageOk(s.blocks[e.blocks[k]], k, j, e.full, s.size);
      if e.blocks[k] in pages {
        assert ClaimOk(t, t.blocks[e.blocks[k]], OfEntry(j, k));
      }
    }
    forall c | c in e.clones ensures CloneOk(t.blocks[c], j, e.full, t.size) {
      assert CloneOk(s.blocks[c], j, e.full, s.size);
      if c in pages {
        assert ClaimOk(t, t.blocks[c], OfClone(j));
      }
    }
  }

  /** Pages that the entry gave up are among the changed ones. */
  ghost predicate ListStep(s: State, t: State, key: Key, pages: set<nat>)
    requires key in s.entries && key in t.entries
  {
    && (forall k :: 0 <= k < |s.entries[key].blocks| && s.entries[key].blocks[k] !in pages ==>
          k < |t.entries[key].blocks| && t.entries[key].blocks[k] == s.entries[key].blocks[k])
    && forall c :: c in s.entries[key].clones && c !in pages ==> c in t.entries[key].clones
  }

  lemma EntryOwnersKept(s: State, t: State, key: Key, pages: set<nat>)
    requires OnlyByEntry(s, t, key, pages) && OwnersHold(s) && ListStep(s, t, key, pages)
    requires forall b :: b in pages ==> EntryPageStep(s, t, key, b)
    ensures OwnersHold(t)
  {
    forall i, o | 0 <= i < |t.blocks| && o in t.blocks[i].owners ensures Held(t, i, o) {
      if i in pages {
        assert EntryPageStep(s, t, key, i);
      } else {
        assert Held(s, i, o);
      }
    }
  }

  lemma EntryStepKeepsInv(s: State, t: State, key: Key, pages: set<nat>)
    requires Inv(s) && OnlyByEntry(s, t, key, pages) && ListStep(s, t, key, pages)
    requires forall b :: b in pages ==> EntryPageStep(s, t, key, b)
    requires EntryOk(t, key)
    ensures Inv(t)
  {
    forall j | j in t.seqs ensures SeqOk(t, j) {
      assert SeqOk(s, j);
      SeqKept(s, t, key, pages, j);
    }
    forall j | j in t.entries ensures EntryOk(t, j) {
      assert EntryOk(s, j);
      if j != key { OtherEntryKept(s, t, key, pages, j); }
    }
    EntryOwnersKept(s, t, key, pages);
    forall i | 0 <= i < |t.blocks| ensures BlockOk(t.blocks[i], t.size) {
      if i in pages { assert EntryPageStep(s, t, key, i); }
    }
  }

  // ----- a new entry, and its removal

  /** A prefix of `full` pages and `tail` rows is admitted; it has no pages yet. */
  function NewEntry(s: State, key: Key, full: nat, tail: nat): State {
    WithEntry(s, key, Entry(full, tail, [], {}))
  }

  /** Only entries changed, and none that owns a page. */
  ghost predicate IdleChange(s: State, t: State) {
    && t.size == s.size && t.blocks == s.blocks && t.seqs == s.seqs && t.index == s.index
    && forall i, o :: 0 <= i < |s.blocks| && o in s.blocks[i].owners && !o.OfSeq? && o.key in s.entries ==>
         o.key in t.entries && t.entries[o.key] == s.entries[o.key]
  }

  lemma IdleChangeKeepsSeq(s: State, t: State, j: nat)
    requires IdleChange(s, t) && j in s.seqs && SeqOk(s, j)
    ensures SeqOk(t, j)
  {
    var q := s.seqs[j];
    forall k | 0 <= k < |q.table| ensures PageOk(t.blocks[q.table[k]], k, j, q, t.entries, t.size) {
      assert PageOk(s.blocks[q.table[k]], k, j, q, s.entries, s.size);
    }
  }

  lemma IdleChangeKeepsInv(s: State, t: State)
    requires Inv(s) && IdleChange(s, t)
    requires forall j :: j in t.entries ==> EntryOk(t, j)
    ensures Inv(t)
  {
    forall j | j in t.seqs ensures SeqOk(t, j) {
      assert SeqOk(s, j);
      IdleChangeKeepsSeq(s, t, j);
    }
    forall i, o | 0 <= i < |t.blocks| && o in t.blocks[i].owners ensures Held(t, i, o) {
      assert Held(s, i, o);
    }
  }

  lemma NewEntryKeepsInv(s: State, key: Key, full: nat, tail: nat)
    requires Inv(s) && key !in s.entries && key != [] && tail < s.size && Start(full, s.size) + tail == |key|
    ensures Inv(NewEntry(s, key, full, tail))
  {
    var t := NewEntry(s, key, full, tail);
    forall j | j in t.entries ensures EntryOk(t, j) {
      if j != key { assert EntryOk(s, j); }
    }
    IdleChangeKeepsInv(s, t);
  }

  function RemoveEntry(s: State, key: Key): State { s.(entries := s.entries - {key}) }

  lemma RemoveEntryKeepsInv(s: State, key: Key)
    requires Inv(s) && key in s.entries && s.entries[key].blocks == [] && s.entries[key].clones == {}
    ensures Inv(RemoveEntry(s, key))
  {
    var t := RemoveEntry(s, key);
    forall i, o | 0 <= i < |s.blocks| && o in s.blocks[i].owners ensures !Of(o, key) {
      assert Held(s, i, o);
    }
    forall j | j in t.entries ensures EntryOk(t, j) {
      assert EntryOk(s, j);
    }
    IdleChangeKeepsInv(s, t);
  }

  // ----- taking pages

  /** The entry takes a reference to page b as its next page. */
  function TakePage(s: State, key: Key, b: nat): State
    requires key in s.entries && b < |s.blocks|
  {
    var e := s.entries[key];
    WithEntry(WithBlock(s, b, Share(s.blocks[b], OfEntry(key, |e.blocks|))), key, e.(blocks := e.blocks + [b]))
  }

  /** The entry keeps page b as a copy of its tail. */
  function TakeClone(s: State, key: Key, b: nat): State
    requires key in s.entries && b < |s.blocks|
  {
    var e := s.entries[key];
    WithEntry(WithBlock(s, b, Share(s.blocks[b], OfClone(key))), key, e.(clones := e.clones + {b}))
  }

  /** Page b is page k of request id, whose computed history starts with the prefix. */
  ghost predicate Source(s: State, id: nat, k: nat, key: Key, b: nat)
    requires id in s.seqs
  {
    var q := s.seqs[id];
    && key in s.entries && k < |q.table| && q.table[k] == b < |s.blocks|
    && |key| <= q.computed <= |q.tokens| && key == q.tokens[..|key|] && key == OwnKey(q)
    && s.entries[key].full <= q.published && Settled(s, id)
  }

  /** Reference o of the entry to page b, which is page k of request id. */
  ghost predicate Taking(s: State, t: State, id: nat, k: nat, key: Key, b: nat, o: Owner)
    requires id in s.seqs
  {
    && Source(s, id, k, key, b) && OnlyByEntry(s, t, key, {b}) && |t.blocks| == |s.blocks|
    && Of(o, key) && (o.OfEntry? ==> o.page == k)
    && (k == s.entries[key].full || (o.OfEntry? && k < s.entries[key].full))
    && o !in s.blocks[b].owners && t.blocks[b] == Share(s.blocks[b], o)
  }

  /** A request whose page is private is the source itself, and it has computed the whole prefix. */
  lemma TakingFromPrivate(s: State, t: State, id: nat, k: nat, key: Key, b: nat, o: Owner, j: nat, page: nat)
    requires Inv(s) && id in s.seqs && Taking(s, t, id, k, key, b, o)
    requires j in s.seqs && OfSeq(id, k) in s.blocks[b].owners
    requires Private(s.blocks[b], page, j, s.entries, s.seqs[j].computed - Start(page, s.size), OwnKey(s.seqs[j]))
    requires s.seqs[j].published <= page
    ensures j == id && page == k
    ensures NeedsOnly(o, t.entries, s.seqs[j].computed - Start(page, s.size), OwnKey(s.seqs[j]))
  {
    assert EntryOk(s, key);
  }

  /** A reference that ends within the computed rows of its source disturbs no request. */
  lemma TakingSparesSeqs(s: State, t: State, id: nat, k: nat, key: Key, b: nat, o: Owner, j: nat, page: nat)
    requires Inv(s) && id in s.seqs && Taking(s, t, id, k, key, b, o)
    requires j in s.seqs && OfSeq(id, k) in s.blocks[b].owners
    requires PageOk(s.blocks[b], page, j, s.seqs[j], s.entries, s.size)
    ensures PageOk(t.blocks[b], page, j, s.seqs[j], t.entries, s.size)
  {
    var q := s.seqs[j];
    if page >= q.published && !(q.dirty <= page < q.dirtyEnd) {
      TakingFromPrivate(s, t, id, k, key, b, o, j, page);
    }
  }

  lemma TakingSparesEntries(s: State, t: State, key: Key, b: nat, o: Owner, p: Owner)
    requires OnlyByEntry(s, t, key, {b}) && b < |s.blocks| == |t.blocks| && t.blocks[b] == Share(s.blocks[b], o)
    requires !p.OfSeq? && ClaimOk(s, s.blocks[b], p)
    ensures ClaimOk(t, t.blocks[b], p)
  {
    assert t.entries[p.key].full == s.entries[p.key].full;
  }

  lemma TakingSpares(s: State, t: State, id: nat, k: nat, key: Key, b: nat, o: Owner, p: Owner)
    requires Inv(s) && id in s.seqs && Taking(s, t, id, k, key, b, o) && p in s.blocks[b].owners
    requires OfSeq(id, k) in s.blocks[b].owners
    ensures ClaimOk(t, t.blocks[b], p)
  {
    ClaimOfOwner(s, b, p);
    if p.OfSeq? {
      TakingSparesSeqs(s, t, id, k, key, b, o, p.id, p.page);
    } else {
      TakingSparesEntries(s, t, key, b, o, p);
    }
  }

  lemma TakingStep(s: State, t: State, id: nat, k: nat, key: Key, b: nat, o: Owner)
    requires Inv(s) && id in s.seqs && Taking(s, t, id, k, key, b, o) && Held(t, b, o)
    requires forall p :: Of(p, key) && Held(s, b, p) ==> Held(t, b, p)
    ensures EntryPageStep(s, t, key, b)
  {
    OwnedPage(s, id, k);
    forall p | p in s.blocks[b].owners && !Of(p, key) ensures ClaimOk(t, t.blocks[b], p) {
      TakingSpares(s, t, id, k, key, b, o, p);
    }
    forall p | p in t.blocks[b].owners ensures Held(t, b, p) {
      if p != o { assert Held(s, b, p); }
    }
  }

  /** The next page of the entry can be taken from the same page of request id. */
  ghost predicate Takeable(s: State, id: nat, key: Key)
    requires id in s.seqs && key in s.entries
  {
    var k := |s.entries[key].blocks|;
    && k < |s.seqs[id].table| && Source(s, id, k, key, s.seqs[id].table[k])
    && k < s.entries[key].full + (if s.entries[key].tail > 0 then 1 else 0)
  }

  lemma TakePageStep(s: State, id: nat, key: Key, b: nat)
    requires Inv(s) && id in s.seqs && key in s.entries && Takeable(s, id, key)
    requires b == s.seqs[id].table[|s.entries[key].blocks|]
    ensures EntryPageStep(s, TakePage(s, key, b), key, b)
    ensures OnlyByEntry(s, TakePage(s, key, b), key, {b}) && ListStep(s, TakePage(s, key, b), key, {b})
  {
    var k := |s.entries[key].blocks|;
    var o := OfEntry(key, k);
    assert o in s.blocks[b].owners ==> Held(s, b, o);
    TakingStep(s, TakePage(s, key, b), id, k, key, b, o);
  }

  lemma TakenPageHolds(s: State, id: nat, key: Key, k: nat, b: nat)
    requires id in s.seqs && key in s.entries && EntryOk(s, key) && Source(s, id, k, key, b)
    requires PageOk(s.blocks[b], k, id, s.seqs[id], s.entries, s.size)
    ensures EntryPageOk(Share(s.blocks[b], OfEntry(key, k)), k, key, s.entries[key].full, s.size)
  {
    if k < s.entries[key].full { StartMonotone(k + 1, s.entries[key].full, s.size); }
    PrefixRows(s.blocks[b], k, key, s.seqs[id].tokens, s.seqs[id].computed, s.size);
  }

  lemma TakePageEntryOk(s: State, id: nat, key: Key, b: nat)
    requires id in s.seqs && key in s.entries && Takeable(s, id, key) && EntryOk(s, key)
    requires b == s.seqs[id].table[|s.entries[key].blocks|]
    requires PageOk(s.blocks[b], |s.entries[key].blocks|, id, s.seqs[id], s.entries, s.size)
    ensures EntryOk(TakePage(s, key, b), key)
  {
    var e := s.entries[key];
    var t := TakePage(s, key, b);
    TakenPageHolds(s, id, key, |e.blocks|, b);
    forall i | 0 <= i < |e.blocks| ensures EntryPageOk(t.blocks[e.blocks[i]], i, key, e.full, t.size) {
      assert EntryPageOk(s.blocks[e.blocks[i]], i, key, e.full, s.size);
    }
    forall c | c in e.clones ensures CloneOk(t.blocks[c], key, e.full, t.size) {
      assert CloneOk(s.blocks[c], key, e.full, s.size);
    }
  }

  lemma TakePageKeepsInv(s: State, id: nat, key: Key, b: nat)
    requires Inv(s) && id in s.seqs && key in s.entries && Takeable(s, id, key)
    requires b == s.seqs[id].table[|s.entries[key].blocks|]
    ensures b < |s.blocks| && Inv(TakePage(s, key, b))
  {
    OwnedPage(s, id, |s.entries[key].blocks|);
    assert EntryOk(s, key);
    TakePageStep(s, id, key, b);
    TakePageEntryOk(s, id, key, b);
    EntryStepKeepsInv(s, TakePage(s, key, b), key, {b});
  }

  ghost predicate CloneTakeable(s: State, id: nat, key: Key, b: nat)
    requires id in s.seqs && key in s.entries
  {
    Source(s, id, s.entries[key].full, key, b) && s.entries[key].tail > 0 && b !in s.entries[key].clones
  }

  lemma TakeCloneStep(s: State, id: nat, key: Key, b: nat)
    requires Inv(s) && id in s.seqs && key in s.entries && CloneTakeable(s, id, key, b)
    ensures EntryPageStep(s, TakeClone(s, key, b), key, b)
    ensures OnlyByEntry(s, TakeClone(s, key, b), key, {b}) && ListStep(s, TakeClone(s, key, b), key, {b})
  {
    assert OfClone(key) in s.blocks[b].owners ==> Held(s, b, OfClone(key));
    TakingStep(s, TakeClone(s, key, b), id, s.entries[key].full, key, b, OfClone(key));
  }

  lemma TakeCloneEntryOk(s: State, id: nat, key: Key, b: nat)
    requires id in s.seqs && key in s.entries && CloneTakeable(s, id, key, b) && EntryOk(s, key)
    requires PageOk(s.blocks[b], s.entries[key].full, id, s.seqs[id], s.entries, s.size)
    ensures EntryOk(TakeClone(s, key, b), key)
  {
    var e := s.entries[key];
    var t := TakeClone(s, key, b);
    PrefixRows(s.blocks[b], e.full, key, s.seqs[id].tokens, s.seqs[id].computed, s.size);
    forall i | 0 <= i < |e.blocks| ensures EntryPageOk(t.blocks[e.blocks[i]], i, key, e.full, t.size) {
      assert EntryPageOk(s.blocks[e.blocks[i]], i, key, e.full, s.size);
    }
    forall c | c in t.entries[key].clones ensures CloneOk(t.blocks[c], key, e.full, t.size) {
      assert c in e.clones ==> CloneOk(s.blocks[c], key, e.full, s.size);
    }
  }

  lemma TakeCloneKeepsInv(s: State, id: nat, key: Key, b: nat)
    requires Inv(s) && id in s.seqs && key in s.entries && CloneTakeable(s, id, key, b)
    ensures b < |s.blocks| && Inv(TakeClone(s, key, b))
  {
    OwnedPage(s, id, s.entries[key].full);
    assert EntryOk(s, key);
    TakeCloneStep(s, id, key, b);
    TakeCloneEntryOk(s, id, key, b);
    EntryStepKeepsInv(s, TakeClone(s, key, b), key, {b});
  }

  lemma PrefixRows(b: Block, k: nat, key: Key, tokens: Key, computed: nat, size: nat)
    requires RowsHold(b, k, tokens, computed, size) && |key| <= computed && key == tokens[..|key|]
    ensures RowsHold(b, k, key, |key|, size)
  {
    forall r | 0 <= r < size && Start(k, size) + r < |key| ensures b.rows[r] == key[..Start(k, size) + r + 1] {
      assert b.rows[r] == tokens[..Start(k, size) + r + 1];
    }
  }

  // ----- giving up pages

  function DropPage(s: State, key: Key): State
    requires key in s.entries && s.entries[key].blocks != []
    requires var e := s.entries[key];
             e.blocks[|e.blocks| - 1] < |s.blocks| && s.blocks[e.blocks[|e.blocks| - 1]].refs > 0
  {
    var e := s.entries[key];
    var k := |e.blocks| - 1;
    WithEntry(WithBlock(s, e.blocks[k], Release(s.blocks[e.blocks[k]], OfEntry(key, k))), key,
      e.(blocks := e.blocks[..k]))
  }

  function DropClone(s: State, key: Key, c: nat): State
    requires key in s.entries && c < |s.blocks| && s.blocks[c].refs > 0
  {
    var e := s.entries[key];
    WithEntry(WithBlock(s, c, Release(s.blocks[c], OfClone(key))), key, e.(clones := e.clones - {c}))
  }

  lemma GivingUpIsHarmless(s: State, t: State, key: Key, b: nat, o: Owner, p: Owner)
    requires Inv(s) && b < |s.blocks| == |t.blocks| && p in s.blocks[b].owners && !Of(p, key) && Of(o, key)
    requires s.blocks[b].refs > 0 && t.blocks[b] == Release(s.blocks[b], o)
    requires t.seqs == s.seqs && t.size == s.size && t.entries.Keys == s.entries.Keys
    requires forall j :: j in s.entries ==>
               t.entries[j].full == s.entries[j].full && t.entries[j].tail == s.entries[j].tail
    ensures ClaimOk(t, t.blocks[b], p)
  {
    ClaimOfOwner(s, b, p);
  }

  lemma OwnedEntryPage(s: State, key: Key, b: nat, o: Owner)
    requires Inv(s) && key in s.entries && Of(o, key) && Held(s, b, o)
    ensures b < |s.blocks| && o in s.blocks[b].owners && BlockOk(s.blocks[b], s.size) && s.blocks[b].refs > 0
  {
    assert EntryOk(s, key);
    assert o in s.blocks[b].owners && BlockOk(s.blocks[b], s.size);
    assert |s.blocks[b].owners| > 0;
  }

  /** Giving up reference o to page b, while every other page of the entry stays where it was. */
  lemma GivingUpStep(s: State, t: State, key: Key, b: nat, o: Owner)
    requires Inv(s) && OnlyByEntry(s, t, key, {b}) && b < |s.blocks| && Of(o, key)
    requires s.blocks[b].refs > 0 && t.blocks[b] == Release(s.blocks[b], o) && o in s.blocks[b].owners
    requires forall p :: Of(p, key) && p != o && Held(s, b, p) ==> Held(t, b, p)
    ensures EntryPageStep(s, t, key, b)
  {
    assert BlockOk(s.blocks[b], s.size);
    forall p | p in s.blocks[b].owners && !Of(p, key) ensures ClaimOk(t, t.blocks[b], p) {
      GivingUpIsHarmless(s, t, key, b, o, p);
    }
    forall p | p in t.blocks[b].owners ensures Held(t, b, p) {
      assert Held(s, b, p);
    }
  }

  lemma DropPageEntryOk(s: State, key: Key, b: nat)
    requires key in s.entries && EntryOk(s, key) && s.entries[key].blocks != []
    requires b == s.entries[key].blocks[|s.entries[key].blocks| - 1] && s.blocks[b].refs > 0
    ensures EntryOk(DropPage(s, key), key)
  {
    var e := s.entries[key];
    var t := DropPage(s, key);
    forall i | 0 <= i < |e.blocks| - 1 ensures EntryPageOk(t.blocks[e.blocks[i]], i, key, e.full, t.size) {
      assert EntryPageOk(s.blocks[e.blocks[i]], i, key, e.full, s.size);
    }
    forall c | c in e.clones ensures CloneOk(t.blocks[c], key, e.full, t.size) {
      assert CloneOk(s.blocks[c], key, e.full, s.size);
    }
  }

  lemma DropPageOnly(s: State, key: Key, b: nat)
    requires key in s.entries && s.entries[key].blocks != []
    requires b == s.entries[key].blocks[|s.entries[key].blocks| - 1] && b < |s.blocks| && s.blocks[b].refs > 0
    ensures OnlyByEntry(s, DropPage(s, key), key, {b})
    ensures ListStep(s, DropPage(s, key), key, {b})
    ensures forall p :: Of(p, key) && p != OfEntry(key, |s.entries[key].blocks| - 1) && Held(s, b, p) ==>
              Held(DropPage(s, key), b, p)
  {
  }

  lemma DropPageKeepsInv(s: State, key: Key, b: nat)
    requires Inv(s) && key in s.entries && s.entries[key].blocks != []
    requires b == s.entries[key].blocks[|s.entries[key].blocks| - 1]
    ensures b < |s.blocks| && s.blocks[b].refs > 0 && Inv(DropPage(s, key))
  {
    OwnedEntryPage(s, key, b, OfEntry(key, |s.entries[key].blocks| - 1));
    DropPageOnly(s, key, b);
    GivingUpStep(s, DropPage(s, key), key, b, OfEntry(key, |s.entries[key].blocks| - 1));
    assert EntryOk(s, key);
    DropPageEntryOk(s, key, b);
    EntryStepKeepsInv(s, DropPage(s, key), key, {b});
  }

  lemma DropCloneOnly(s: State, key: Key, c: nat)
    requires key in s.entries && c in s.entries[key].clones && c < |s.blocks| && s.blocks[c].refs > 0
    ensures OnlyByEntry(s, DropClone(s, key, c), key, {c})
    ensures ListStep(s, DropClone(s, key, c), key, {c})
    ensures forall p :: Of(p, key) && p != OfClone(key) && Held(s, c, p) ==> Held(DropClone(s, key, c), c, p)
  {
  }

  lemma DropCloneEntryOk(s: State, key: Key, c: nat)
    requires key in s.entries && EntryOk(s, key) && c in s.entries[key].clones && s.blocks[c].refs > 0
    ensures EntryOk(DropClone(s, key, c), key)
  {
    var e := s.entries[key];
    var t := DropClone(s, key, c);
    forall i | 0 <= i < |e.blocks| ensures EntryPageOk(t.blocks[e.blocks[i]], i, key, e.full, t.size) {
      assert EntryPageOk(s.blocks[e.blocks[i]], i, key, e.full, s.size);
    }
    forall d | d in t.entries[key].clones ensures CloneOk(t.blocks[d], key, e.full, t.size) {
      assert CloneOk(s.blocks[d], key, e.full, s.size);
    }
  }

  lemma DropCloneKeepsInv(s: State, key: Key, c: nat)
    requires Inv(s) && key in s.entries && c in s.entries[key].clones
    ensures c < |s.blocks| && s.blocks[c].refs > 0 && Inv(DropClone(s, key, c))
  {
    OwnedEntryPage(s, key, c, OfClone(key));
    assert EntryOk(s, key);
    DropCloneOnly(s, key, c);
    GivingUpStep(s, DropClone(s, key, c), key, c, OfClone(key));
    DropCloneEntryOk(s, key, c);
    EntryStepKeepsInv(s, DropClone(s, key, c), key, {c});
  }
}
