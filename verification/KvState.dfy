/** The paged KV cache of prism_infer/engine (block_pool.py, block_manager.py) in its dense,
    block-level mode: physical pages with reference counts and prefix hashes, the page tables of
    requests, and the retained multimodal prefix entries with their tail clones.

    A key is a whole token history.  The chained page hash is injective, so the hash of a page is
    the history up to its last token; image placeholders carry their media identity in the token.
    The KV row of a position is determined by the history up to and including it, so it is that key. */
module KvState {
  import opened Paging

  type Token = int
  type Key = seq<Token>

  /** Who holds a reference to a page, and as which page of its own. */
  datatype Owner = OfSeq(id: nat, page: nat) | OfEntry(key: Key, page: nat) | OfClone(key: Key)

  /** A physical page.  An empty hash is NO_BLOCK_HASH; `owners` records who took the references
      that `refs` counts; `rows` is what the page holds. */
  datatype Block = Block(refs: nat, hash: Key, owners: set<Owner>, rows: seq<Key>)

  /** A request: `computed` rows of its history are in its pages, of which the first `published`
      pages carry a hash.  Pages from `dirty` up to `dirtyEnd` are still shared and wait to be
      made private; outside an allocation there are none.  `spans` are the token ranges of its
      images and `boundary` the end of the last one (0 for a text request). */
  datatype Sequence = Sequence(tokens: Key, prompt: nat, spans: seq<(nat, nat)>, boundary: nat,
                               computed: nat, published: nat, dirty: nat, dirtyEnd: nat, table: seq<nat>)

  /** A retained prefix: `full` complete pages and `tail` rows of a further page. */
  datatype Entry = Entry(full: nat, tail: nat, blocks: seq<nat>, clones: set<nat>)

  datatype State = State(
    size: nat,
    blocks: seq<Block>,
    index: map<Key, nat>,
    seqs: map<nat, Sequence>,
    entries: map<Key, Entry>)

  // ----- the invariant

  ghost predicate BlockOk(b: Block, size: nat) {
    && b.refs == |b.owners| && |b.rows| == size
    && (b.hash != [] ==> size <= |b.hash| && forall r :: 0 <= r < size ==>
      b.rows[r] == b.hash[..|b.hash| - size + r + 1])
  }

  /** The prefix under which a request looks for a retained prefix: up to the end of its last image. */
  function OwnKey(q: Sequence): Key {
    if q.boundary <= |q.tokens| then q.tokens[..q.boundary] else []
  }

  /** An owner that may hold an unfinished page of a request next to it: the request's own prefix
      `own`, as far as it needs only rows that are already computed, `done` of them. */
  ghost predicate NeedsOnly(o: Owner, entries: map<Key, Entry>, done: int, own: Key) {
    match o
    case OfSeq(_, _) => false
    case OfEntry(key, page) => key == own && key in entries && page == entries[key].full && entries[key].tail <= done
    case OfClone(key) => key == own && key in entries && entries[key].tail <= done
  }

  /** The page carries no hash and belongs to page k of request id alone, up to its own retained
      prefix, which ends within its `done` computed rows. */
  ghost predicate Private(b: Block, k: nat, id: nat, entries: map<Key, Entry>, done: int, own: Key) {
    b.hash == [] && forall o :: o in b.owners ==> o == OfSeq(id, k) || NeedsOnly(o, entries, done, own)
  }

  ghost predicate RowsHold(b: Block, k: nat, key: Key, upTo: nat, size: nat) {
    && |b.rows| == size && upTo <= |key|
    && forall r :: 0 <= r < size && Start(k, size) + r < upTo ==> b.rows[r] == key[..Start(k, size) + r + 1]
  }

  /** Page k of request id: computed rows hold its history, a published page carries the hash of
      that history, any other page is private. */
  ghost predicate PageOk(b: Block, k: nat, id: nat, q: Sequence, entries: map<Key, Entry>, size: nat) {
    && OfSeq(id, k) in b.owners
    && RowsHold(b, k, q.tokens, q.computed, size)
    && (k < q.published ==> Start(k + 1, size) <= q.computed && b.hash == q.tokens[..Start(k + 1, size)])
    && (k >= q.published && !(q.dirty <= k < q.dirtyEnd) ==>
      Private(b, k, id, entries, q.computed - Start(k, size), OwnKey(q)))
  }

  ghost predicate SeqOk(s: State, id: nat)
    requires id in s.seqs
  {
    var q := s.seqs[id];
    && q.boundary <= |q.tokens| && q.computed <= |q.tokens| && q.computed <= Start(|q.table|, s.size)
      && q.published <= |q.table|
    && forall k :: 0 <= k < |q.table| ==>
         q.table[k] < |s.blocks| && PageOk(s.blocks[q.table[k]], k, id, q, s.entries, s.size)
  }

  /** Page k of a retained prefix holds the prefix, and complete pages carry its hash. */
  ghost predicate EntryPageOk(b: Block, k: nat, key: Key, full: nat, size: nat) {
    && OfEntry(key, k) in b.owners
    && RowsHold(b, k, key, |key|, size)
    && (k < full ==> Start(k + 1, size) <= |key| && b.hash == key[..Start(k + 1, size)])
  }

  ghost predicate CloneOk(b: Block, key: Key, full: nat, size: nat) {
    OfClone(key) in b.owners && RowsHold(b, full, key, |key|, size)
  }

  ghost predicate EntryOk(s: State, key: Key)
    requires key in s.entries
  {
    var e := s.entries[key];
    && key != [] && e.tail < s.size && Start(e.full, s.size) + e.tail == |key|
    && |e.blocks| <= e.full + (if e.tail > 0 then 1 else 0)
    && (e.clones != {} ==> e.tail > 0)
    && (forall k :: 0 <= k < |e.blocks| ==>
          e.blocks[k] < |s.blocks| && EntryPageOk(s.blocks[e.blocks[k]], k, key, e.full, s.size))
    && forall c :: c in e.clones ==> c < |s.blocks| && CloneOk(s.blocks[c], key, e.full, s.size)
  }

  /** Every recorded owner really holds the page. */
  ghost predicate Held(s: State, b: nat, o: Owner) {
    match o
    case OfSeq(id, k) => id in s.seqs && k < |s.seqs[id].table| && s.seqs[id].table[k] == b
    case OfEntry(key, k) => key in s.entries && k < |s.entries[key].blocks| && s.entries[key].blocks[k] == b
    case OfClone(key) => key in s.entries && b in s.entries[key].clones
  }

  ghost predicate IndexOk(s: State) {
    forall key :: key in s.index ==> key != [] && s.index[key] < |s.blocks| && s.blocks[s.index[key]].hash == key
  }

  ghost predicate OwnersHold(s: State) {
    forall i, o :: 0 <= i < |s.blocks| && o in s.blocks[i].owners ==> Held(s, i, o)
  }

  ghost predicate BlocksOk(s: State) {
    && s.size > 0
    && (forall i :: 0 <= i < |s.blocks| ==> BlockOk(s.blocks[i], s.size))
    && IndexOk(s) && OwnersHold(s)
  }

  ghost predicate Inv(s: State) {
    && BlocksOk(s)
    && (forall id :: id in s.seqs ==> SeqOk(s, id))
    && forall key :: key in s.entries ==> EntryOk(s, key)
  }

  // ----- what the invariant means for a reader

  /** Attention over computed positions of a request reads exactly the KV rows of its own history,
      whatever was shared, copied, cached or evicted before. */
  lemma ReadsOwnHistory(s: State, id: nat, k: nat, r: nat)
    requires Inv(s) && id in s.seqs && r < s.size && Start(k, s.size) + r < s.seqs[id].computed
    ensures s.seqs[id].computed <= |s.seqs[id].tokens|
    ensures k < |s.seqs[id].table| && s.seqs[id].table[k] < |s.blocks|
    ensures r < |s.blocks[s.seqs[id].table[k]].rows|
    ensures s.blocks[s.seqs[id].table[k]].rows[r] == s.seqs[id].tokens[..Start(k, s.size) + r + 1]
  {
    var q := s.seqs[id];
    assert SeqOk(s, id);
    if k >= |q.table| {
      StartMonotone(|q.table|, k, s.size);
    }
    assert PageOk(s.blocks[q.table[k]], k, id, q, s.entries, s.size);
  }

  /** A hash hit is never wrong: the page holds the KV rows of the asked history. */
  lemma HitHoldsHistory(s: State, key: Key, r: nat)
    requires Inv(s) && key in s.index && r < s.size
    ensures s.index[key] < |s.blocks| && s.size <= |key| && r < |s.blocks[s.index[key]].rows|
    ensures s.blocks[s.index[key]].rows[r] == key[..|key| - s.size + r + 1]
  {
    assert BlockOk(s.blocks[s.index[key]], s.size);
  }

  /** A page that a request is about to write is read by nobody else: no other request holds it,
      no hash leads to it, and retained prefixes end before the row that is written. */
  lemma WritesDisturbNobody(s: State, id: nat, k: nat, r: nat)
    requires Inv(s) && id in s.seqs && k < |s.seqs[id].table| && s.seqs[id].dirty >= s.seqs[id].dirtyEnd
    requires r < s.size && Start(k, s.size) + r == s.seqs[id].computed
    ensures s.seqs[id].table[k] < |s.blocks|
    ensures forall key :: key in s.index ==> s.index[key] != s.seqs[id].table[k]
    ensures forall o :: o in s.blocks[s.seqs[id].table[k]].owners ==>
              o == OfSeq(id, k) || NeedsOnly(o, s.entries, r, OwnKey(s.seqs[id]))
  {
    var q := s.seqs[id];
    assert SeqOk(s, id) && PageOk(s.blocks[q.table[k]], k, id, q, s.entries, s.size);
  }
}
