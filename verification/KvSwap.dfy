/** What a request's pages look like on the CPU while it is swapped out. */
module KvSwap {
  import opened Paging
  import opened KvState
  import opened KvSteps
  import opened KvPublishSteps
  import opened FiniteSets

  /** The pages of a swapped-out request. */
  datatype Saved = Saved(computed: nat, published: nat, pages: seq<seq<Key>>)

  ghost predicate SavedPageOk(rows: seq<Key>, k: nat, tokens: Key, computed: nat, size: nat) {
    && |rows| == size && computed <= |tokens|
    && forall r :: 0 <= r < size && Start(k, size) + r < computed ==> rows[r] == tokens[..Start(k, size) + r + 1]
  }

  ghost predicate SavedOk(q: Sequence, v: Saved, size: nat) {
    && v.computed <= |q.tokens| && v.published <= |v.pages|
      && Start(v.published, size) <= v.computed <= Start(|v.pages|, size)
    && forall k :: 0 <= k < |v.pages| ==> SavedPageOk(v.pages[k], k, q.tokens, v.computed, size)
  }

  function PagesOf(s: State, id: nat): seq<seq<Key>>
    requires id in s.seqs && forall k :: 0 <= k < |s.seqs[id].table| ==> s.seqs[id].table[k] < |s.blocks|
  {
    seq(|s.seqs[id].table|, k requires 0 <= k < |s.seqs[id].table| => s.blocks[s.seqs[id].table[k]].rows)
  }

  lemma SavedPages(s: State, id: nat)
    requires Inv(s) && id in s.seqs
    ensures forall k :: 0 <= k < |s.seqs[id].table| ==> s.seqs[id].table[k] < |s.blocks|
    ensures SavedOk(s.seqs[id], Saved(s.seqs[id].computed, s.seqs[id].published, PagesOf(s, id)), s.size)
  {
    hide Inv;
    var q := s.seqs[id];
    SeqIsOk(s, id);
    forall k | 0 <= k < |q.table| ensures SavedPageOk(s.blocks[q.table[k]].rows, k, q.tokens, q.computed, s.size) {
      OwnedPage(s, id, k);
    }
    if q.published > 0 {
      OwnedPage(s, id, q.published - 1);
    }
  }

  /** Rows that are restored once page k is back. */
  function Restored(v: Saved, k: nat, size: nat): nat {
    if v.computed < Start(k, size) then v.computed else Start(k, size)
  }

  /** A longer history starts with the same rows. */
  lemma SavedOkLonger(q: Sequence, longer: Sequence, v: Saved, size: nat)
    requires SavedOk(q, v, size) && q.tokens <= longer.tokens
    ensures SavedOk(longer, v, size)
  {
    forall k | 0 <= k < |v.pages| ensures SavedPageOk(v.pages[k], k, longer.tokens, v.computed, size) {
      assert SavedPageOk(v.pages[k], k, q.tokens, v.computed, size);
      forall n | 0 <= n <= v.computed ensures longer.tokens[..n] == q.tokens[..n] { }
    }
  }

  /** What the CPU holds is what its requests had computed. */
  ghost predicate SavedAll(s: State, cpu: map<nat, Saved>) {
    forall id :: id in cpu ==> id in s.seqs && SavedOk(s.seqs[id], cpu[id], s.size)
  }

  // ----- rows that come back

  /** The last page of a request waits for rows: it is the request's own, and everything before it is
      computed. */
  ghost predicate Awaits(s: State, id: nat)
    requires id in s.seqs
  {
    var q := s.seqs[id];
    var k := |q.table| - 1;
    && q.table != [] && Settled(s, id) && q.published <= k
    && q.table[k] < |s.blocks| && s.blocks[q.table[k]].owners == {OfSeq(id, k)} && q.computed == Start(k, s.size)
  }

  /** Page k of a swapped-out request can come back to its last page. */
  ghost predicate Reloadable(s: State, id: nat, v: Saved)
    requires id in s.seqs
  {
    Awaits(s, id) && |s.seqs[id].table| <= |v.pages| && v.computed > s.seqs[id].computed
  }

  lemma ReloadIsLoad(s: State, id: nat, v: Saved)
    requires id in s.seqs && Reloadable(s, id, v) && SavedOk(s.seqs[id], v, s.size)
    ensures var k := |s.seqs[id].table| - 1; Loadable(s, id, v.pages[k], Restored(v, k + 1, s.size))
  {
    var k := |s.seqs[id].table| - 1;
    assert SavedPageOk(v.pages[k], k, s.seqs[id].tokens, v.computed, s.size);
  }

  /** Rows of a page into which the first `tail` rows of another were copied. */
  function Copied(from: Block, to: Block, tail: nat): seq<Key>
    requires tail <= |from.rows| == |to.rows|
  {
    from.rows[..tail] + to.rows[tail..]
  }

  /** The tail of a retained prefix can be copied to the last page of a request that starts with it. */
  ghost predicate TailCopyable(s: State, id: nat, key: Key)
    requires id in s.seqs
  {
    && Awaits(s, id) && key in s.entries && key == OwnKey(s.seqs[id])
    && |s.seqs[id].table| == s.entries[key].full + 1 == |s.entries[key].blocks|
  }

  lemma TailCopyIsLoad(s: State, id: nat, key: Key)
    requires Inv(s) && id in s.seqs && TailCopyable(s, id, key)
    ensures var e, b := s.entries[key], s.seqs[id].table[s.entries[key].full];
            && e.blocks[e.full] < |s.blocks| && e.tail <= |s.blocks[e.blocks[e.full]].rows| == |s.blocks[b].rows|
            && Loadable(s, id, Copied(s.blocks[e.blocks[e.full]], s.blocks[b], e.tail), |key|)
  {
    var e, q := s.entries[key], s.seqs[id];
    var canonical := e.blocks[e.full];
    OwnedPage(s, id, e.full);
    assert EntryOk(s, key) && EntryPageOk(s.blocks[canonical], e.full, key, e.full, s.size) && SeqOk(s, id);
    var rows := Copied(s.blocks[canonical], s.blocks[q.table[e.full]], e.tail);
    forall r | 0 <= r < s.size && Start(e.full, s.size) + r < |key|
      ensures rows[r] == q.tokens[..Start(e.full, s.size) + r + 1]
    {
      assert rows[r] == s.blocks[canonical].rows[r] == key[..Start(e.full, s.size) + r + 1];
    }
  }

  // ----- swap slots

  /** One slot for every saved page. */
  function Slots(cpu: map<nat, Saved>): set<(nat, nat)> {
    set id, k: nat | id in cpu && 0 <= k < |cpu[id].pages| :: (id, k)
  }

  function SlotsOf(id: nat, n: nat): set<(nat, nat)> { set k | 0 <= k < n :: (id, k) }

  lemma {:induction false} CountSlotsOf(id: nat, n: nat)
    ensures |SlotsOf(id, n)| == n
  {
    if n > 0 {
      CountSlotsOf(id, n - 1);
      assert SlotsOf(id, n) == SlotsOf(id, n - 1) + {(id, n - 1)};
    } else {
      assert SlotsOf(id, n) == {};
    }
  }

  lemma SlotsWith(cpu: map<nat, Saved>, id: nat, v: Saved)
    requires id !in cpu
    ensures Slots(cpu[id := v]) == Slots(cpu) + SlotsOf(id, |v.pages|)
  {
    var more := cpu[id := v];
    forall j, k: nat ensures (j, k) in Slots(more) <==> (j, k) in Slots(cpu) || (j, k) in SlotsOf(id, |v.pages|) {
      assert j != id && j in more ==> more[j] == cpu[j];
    }
  }

  /** Saving a request takes one slot for each of its pages, and bringing it back frees them. */
  lemma SavingTakesSlots(cpu: map<nat, Saved>, id: nat, v: Saved)
    requires id !in cpu
    ensures |Slots(cpu[id := v])| == |Slots(cpu)| + |v.pages|
  {
    CountSlotsOf(id, |v.pages|);
    SlotsWith(cpu, id, v);
    assert Slots(cpu) !! SlotsOf(id, |v.pages|);
  }

  lemma LeavingFreesSlots(cpu: map<nat, Saved>, id: nat)
    ensures |Slots(cpu - {id})| <= |Slots(cpu)|
  {
    SubsetSize(Slots(cpu - {id}), Slots(cpu));
  }
}
