/** Every interleaving of page-level steps, swapping included, keeps the invariant of KvState: the
    safety of the paged KV cache over whole runs. */
module KvRuns {
  import opened Paging
  import opened KvState
  import opened KvSteps
  import opened KvPublishSteps
  import opened KvEntrySteps
  import opened KvSwap

  // ----- requests come and go

  /** A request arrives: no pages yet. */
  function AddSeq(s: State, id: nat, prompt: Key, spans: seq<(nat, nat)>, boundary: nat): State {
    WithSeq(s, id, Sequence(prompt, |prompt|, spans, boundary, 0, 0, 0, 0, []))
  }

  function RemoveSeq(s: State, id: nat): State { s.(seqs := s.seqs - {id}) }

  /** No page waits to be made private any more. */
  function Rest(s: State, id: nat): State
    requires id in s.seqs
  {
    WithSeq(s, id, s.seqs[id].(dirty := 0, dirtyEnd := 0))
  }

  lemma SeqsChangeKeepsInv(s: State, t: State)
    requires Inv(s) && t == s.(seqs := t.seqs)
    requires forall id :: id in s.seqs && s.seqs[id].table != [] ==>
               id in t.seqs && t.seqs[id].table == s.seqs[id].table
    requires forall id :: id in t.seqs ==> SeqOk(t, id)
    ensures Inv(t)
  {
    forall key | key in t.entries ensures EntryOk(t, key) {
      assert EntryOk(s, key);
    }
    forall i, o | 0 <= i < |t.blocks| && o in t.blocks[i].owners ensures Held(t, i, o) {
      assert Held(s, i, o);
    }
  }

  lemma OtherSeqsKept(s: State, t: State, id: nat)
    requires Inv(s) && t == s.(seqs := t.seqs)
    requires forall j :: j in t.seqs && j != id ==> j in s.seqs && t.seqs[j] == s.seqs[j]
    ensures forall j :: j in t.seqs && j != id ==> SeqOk(t, j)
  {
    forall j | j in t.seqs && j != id ensures SeqOk(t, j) {
      assert SeqOk(s, j);
    }
  }

  lemma AddSeqKeepsInv(s: State, id: nat, prompt: Key, spans: seq<(nat, nat)>, boundary: nat)
    requires Inv(s) && id !in s.seqs && boundary <= |prompt|
    ensures Inv(AddSeq(s, id, prompt, spans, boundary))
  {
    OtherSeqsKept(s, AddSeq(s, id, prompt, spans, boundary), id);
    SeqsChangeKeepsInv(s, AddSeq(s, id, prompt, spans, boundary));
  }

  lemma RemoveSeqKeepsInv(s: State, id: nat)
    requires Inv(s) && id in s.seqs && s.seqs[id].table == []
    ensures Inv(RemoveSeq(s, id))
  {
    OtherSeqsKept(s, RemoveSeq(s, id), id);
    SeqsChangeKeepsInv(s, RemoveSeq(s, id));
  }

  lemma RestKeepsInv(s: State, id: nat)
    requires Inv(s) && id in s.seqs && Settled(s, id)
    ensures Inv(Rest(s, id))
  {
    var t := Rest(s, id);
    assert SeqOk(s, id);
    forall k | 0 <= k < |s.seqs[id].table|
      ensures PageOk(s.blocks[s.seqs[id].table[k]], k, id, t.seqs[id], t.entries, t.size)
    {
      assert PageOk(s.blocks[s.seqs[id].table[k]], k, id, s.seqs[id], s.entries, s.size);
    }
    OtherSeqsKept(s, t, id);
    SeqsChangeKeepsInv(s, t);
  }

  // ----- retaining before or after publishing

  /** The source retains a finished prompt first and publishes its last pages afterwards; the other
      order, which the steps here take, comes to the same. */
  lemma RetainingCommutesWithPublishing(s: State, id: nat, key: Key, b: nat)
    requires Inv(s) && id in s.seqs && Publishable(s, id) && key in s.entries && b < |s.blocks|
    ensures var q := s.seqs[id]; q.table[q.published] < |s.blocks| && q.computed <= |q.tokens|
    ensures PublishNext(TakePage(s, key, b), id) == TakePage(PublishNext(s, id), key, b)
  {
    hide Inv;
    OwnedPage(s, id, s.seqs[id].published);
    SeqIsOk(s, id);
  }

  lemma EvictingCommutesWithPublishing(s: State, id: nat, key: Key)
    requires Inv(s) && id in s.seqs && Publishable(s, id) && key in s.entries && s.entries[key].blocks != []
    ensures var q := s.seqs[id]; q.table[q.published] < |s.blocks| && q.computed <= |q.tokens|
    ensures var e := s.entries[key];
            e.blocks[|e.blocks| - 1] < |s.blocks| && s.blocks[e.blocks[|e.blocks| - 1]].refs > 0
    ensures PublishNext(DropPage(s, key), id) == DropPage(PublishNext(s, id), key)
  {
    hide Inv;
    OwnedPage(s, id, s.seqs[id].published);
    OwnedEntryPage(s, key, s.entries[key].blocks[|s.entries[key].blocks| - 1],
      OfEntry(key, |s.entries[key].blocks| - 1));
    SeqIsOk(s, id);
  }

  // ----- runs

  datatype Step =
    | Arrive(id: nat, prompt: Key, spans: seq<(nat, nat)>, boundary: nat)
    | Leave(id: nat)
    | Token(id: nat, token: Token)
    | Fresh(id: nat, page: nat)
    | Hit(id: nat, page: nat)
    | Adopt(id: nat, key: Key, page: nat)
    | Pop(id: nat)
    | Write(id: nat, k: nat, r: nat)
    | Ahead(id: nat, k: nat, r: nat, row: Key)
    | Over(id: nat, k: nat, r: nat, row: Key)
    | WriteAstray(id: nat, k: nat, r: nat, row: Key)
    | PublishGap(id: nat, k: nat)
    | Publish(id: nat)
    | SnapBack(id: nat, k: nat, computed: nat)
    | Forget(id: nat)
    | Replace(id: nat, k: nat, page: nat, n: nat)
    | Settle(id: nat)
    | Admit(key: Key, full: nat, tail: nat)
    | Discard(key: Key)
    | Take(id: nat, key: Key)
    | Clone(id: nat, key: Key, page: nat)
    | Drop(key: Key)
    | DropTail(key: Key, page: nat)
    | CopyOver(id: nat, key: Key)
    | Save(id: nat)
    | BringBack(id: nat)
    | Forfeit(id: nat)

  /** The cache, and what the CPU holds of requests that are swapped out. */
  datatype World = World(kv: State, cpu: map<nat, Saved>)

  /** When a step of a request is possible. */
  ghost predicate SeqEnabled(s: State, a: Step) {
    match a
    case Arrive(id, prompt, _, boundary) => id !in s.seqs && boundary <= |prompt|
    case Leave(id) => id in s.seqs && s.seqs[id].table == []
    case Token(id, _) => id in s.seqs
    case Fresh(id, b) =>
      id in s.seqs && b < |s.blocks| && s.blocks[b].refs == 0 && s.seqs[id].dirtyEnd <= |s.seqs[id].table|
    case Hit(id, b) => id in s.seqs && Hits(s, id, b)
    case Adopt(id, key, c) => id in s.seqs && Adoptable(s, id, key, c)
    case Pop(id) => id in s.seqs && s.seqs[id].table != [] && Settled(s, id)
    case Write(id, k, r) => id in s.seqs && NextRow(s, id, k, r)
    case Ahead(id, k, r, _) => id in s.seqs && RowAhead(s, id, k, r)
    case Over(id, k, r, _) => id in s.seqs && RowOver(s, id, k, r)
    case Publish(id) => id in s.seqs && Publishable(s, id)
    case SnapBack(id, k, computed) => id in s.seqs && Snappable(s, id, k, computed)
    case Forget(id) => id in s.seqs && Unhashable(s, id)
    case Replace(id, k, b, n) => id in s.seqs && Replaceable(s, id, k, b, n)
    case Settle(id) => id in s.seqs && Settled(s, id)
    case _ => false
  }

  /** When a step of a retained prefix is possible. */
  ghost predicate EntryEnabled(s: State, a: Step) {
    match a
    case Admit(key, full, tail) => key !in s.entries && key != [] && tail < s.size
      && Start(full, s.size) + tail == |key|
    case Discard(key) => key in s.entries && s.entries[key].blocks == [] && s.entries[key].clones == {}
    case Take(id, key) => id in s.seqs && key in s.entries && Takeable(s, id, key)
    case Clone(id, key, b) => id in s.seqs && key in s.entries && CloneTakeable(s, id, key, b)
    case Drop(key) => key in s.entries && s.entries[key].blocks != []
    case DropTail(key, c) => key in s.entries && c in s.entries[key].clones
    case CopyOver(id, key) => id in s.seqs && TailCopyable(s, id, key)
    case _ => false
  }

  /** When a transfer between CPU and GPU is possible.  What comes back is what is stored, whatever that
      is: that it is right is proved. */
  ghost predicate SwapEnabled(w: World, a: Step) {
    match a
    case Save(id) => id in w.kv.seqs && id !in w.cpu
    case BringBack(id) => id in w.cpu && id in w.kv.seqs && Reloadable(w.kv, id, w.cpu[id])
    case Forfeit(id) => id in w.cpu
    case _ => false
  }

  ghost predicate SeqNext(s: State, a: Step, t: State)
    requires Inv(s) && SeqEnabled(s, a)
  {
    match a
    case Arrive(id, prompt, spans, boundary) => t == AddSeq(s, id, prompt, spans, boundary)
    case Leave(id) => t == RemoveSeq(s, id)
    case Token(id, token) => t == AppendToken(s, id, token)
    case Fresh(id, b) => t == AppendFresh(s, id, b)
    case Hit(id, b) => t == AppendHit(s, id, b)
    case Adopt(id, key, c) => t == AdoptClone(s, id, key, c)
    case Pop(id) => PopPageKeepsInv(s, id); t == PopPage(s, id)
    case Write(id, k, r) => WriteRowKeepsInv(s, id, k, r); t == WriteRow(s, id, k, r)
    case Ahead(id, k, r, row) => WriteAheadKeepsInv(s, id, k, r, row); t == WriteAhead(s, id, k, r, row)
    case Over(id, k, r, row) => WriteOverKeepsInv(s, id, k, r, row); t == WriteOver(s, id, k, r, row)
    case Publish(id) => PublishKeepsInv(s, id); t == PublishNext(s, id)
    case SnapBack(id, k, computed) => t == Snap(s, id, k, computed)
    case Forget(id) => t == Unhash(s, id)
    case Replace(id, k, b, n) => ReplacePageKeepsInv(s, id, k, b, n); t == ReplacePage(s, id, k, b, n)
    case Settle(id) => t == Rest(s, id)
    case _ => false
  }

  ghost predicate EntryNext(s: State, a: Step, t: State)
    requires Inv(s) && EntryEnabled(s, a)
  {
    match a
    case Admit(key, full, tail) => t == NewEntry(s, key, full, tail)
    case Discard(key) => t == RemoveEntry(s, key)
    case Take(id, key) =>
      var b := s.seqs[id].table[|s.entries[key].blocks|];
      TakePageKeepsInv(s, id, key, b);
      t == TakePage(s, key, b)
    case Clone(id, key, b) => TakeCloneKeepsInv(s, id, key, b); t == TakeClone(s, key, b)
    case Drop(key) =>
      DropPageKeepsInv(s, key, s.entries[key].blocks[|s.entries[key].blocks| - 1]);
      t == DropPage(s, key)
    case DropTail(key, c) => DropCloneKeepsInv(s, key, c); t == DropClone(s, key, c)
    case CopyOver(id, key) =>
      var e := s.entries[key];
      var b := s.seqs[id].table[e.full];
      TailCopyIsLoad(s, id, key);
      t == LoadPage(s, id, Copied(s.blocks[e.blocks[e.full]], s.blocks[b], e.tail), |key|)
    case _ => false
  }

  ghost predicate SwapNext(w: World, a: Step, x: World)
    requires Inv(w.kv) && SwapEnabled(w, a)
  {
    match a
    case Save(id) =>
      SavedPages(w.kv, id);
      var q := w.kv.seqs[id];
      x == World(w.kv, w.cpu[id := Saved(q.computed, q.published, PagesOf(w.kv, id))])
    case BringBack(id) =>
      var v, k := w.cpu[id], |w.kv.seqs[id].table| - 1;
      x == World(LoadPage(w.kv, id, v.pages[k], Restored(v, k + 1, w.kv.size)), w.cpu)
    case Forfeit(id) => x == World(w.kv, w.cpu - {id})
    case _ => false
  }

  /** The two steps that harm others: a row that strays into a published page, and the publication of a page
      of which some row was not computed. */
  predicate Harmful(a: Step) { a.WriteAstray? || a.PublishGap? }

  /** A request that was sent back and decodes again can take them. */
  ghost predicate HarmEnabled(s: State, a: Step) {
    match a
    case WriteAstray(id, k, r, row) =>
      id in s.seqs && k < s.seqs[id].published && r < s.size && |row| == |s.seqs[id].tokens| > s.seqs[id].computed
    case PublishGap(id, k) =>
      && id in s.seqs && Settled(s, id) && s.seqs[id].published <= k < |s.seqs[id].table|
      && s.seqs[id].computed < Start(k + 1, s.size) <= |s.seqs[id].tokens|
    case _ => false
  }

  lemma StrayReady(s: State, id: nat, k: nat, r: nat, row: Key)
    requires Inv(s) && HarmEnabled(s, WriteAstray(id, k, r, row))
    ensures Start(k, s.size) + r + 1 < |row|
    ensures k < |s.seqs[id].table| && s.seqs[id].table[k] < |s.blocks|
    ensures r < |s.blocks[s.seqs[id].table[k]].rows|
  {
    hide Inv;
    SeqIsOk(s, id);
    OwnedPage(s, id, k);
  }

  ghost predicate HarmNext(s: State, a: Step, t: State)
    requires Inv(s) && HarmEnabled(s, a)
  {
    match a
    case WriteAstray(id, k, r, row) => StrayReady(s, id, k, r, row); t == WriteAhead(s, id, k, r, row)
    case PublishGap(id, k) => SeqIsOk(s, id); t == PublishChained(s, id, k)
    case _ => false
  }

  /** A row that strays always breaks the invariant: the page keeps a hash that no longer tells what it holds.
      Publishing with a gap breaks it for some contents of the rows that were not computed. */
  lemma HarmBreaks(s: State, a: Step, t: State)
    requires Inv(s) && HarmEnabled(s, a) && HarmNext(s, a, t)
    ensures a.WriteAstray? ==> !Inv(t)
    ensures a.PublishGap? ==> (SeqIsOk(s, a.id); !PublishingIsSound(s, a.id, a.k))
  {
    hide Inv, PublishingIsSound;
    match a
    case WriteAstray(id, k, r, row) =>
      StrayReady(s, id, k, r, row);
      StrayWriteBreaks(s, id, k, r, row);
    case PublishGap(id, k) => PublishingIsSoundIff(s, id, k);
    case _ =>
  }

  /** What a step makes of the world, as long as the invariant holds.  A request that leaves takes nothing to
      the CPU with it. */
  ghost predicate Next(w: World, a: Step, x: World) {
    && Inv(w.kv) && (a.Leave? ==> a.id !in w.cpu)
    && if SwapEnabled(w, a) then SwapNext(w, a, x)
       else if HarmEnabled(w.kv, a) then x.cpu == w.cpu && HarmNext(w.kv, a, x.kv)
       else && x.cpu == w.cpu && (SeqEnabled(w.kv, a) || EntryEnabled(w.kv, a))
            && (SeqEnabled(w.kv, a) ==> SeqNext(w.kv, a, x.kv)) && (EntryEnabled(w.kv, a) ==> EntryNext(w.kv, a, x.kv))
  }

  lemma SeqNextKeepsInv(s: State, a: Step, t: State)
    requires Inv(s) && SeqEnabled(s, a) && SeqNext(s, a, t)
    ensures Inv(t)
  {
    match a
    case Arrive(id, prompt, spans, boundary) => AddSeqKeepsInv(s, id, prompt, spans, boundary);
    case Leave(id) => RemoveSeqKeepsInv(s, id);
    case Token(id, token) => AppendTokenKeepsInv(s, id, token);
    case Fresh(id, b) => AppendFreshKeepsInv(s, id, b);
    case Hit(id, b) => AppendHitKeepsInv(s, id, b);
    case Adopt(id, key, c) => AdoptCloneKeepsInv(s, id, key, c);
    case Pop(id) => PopPageKeepsInv(s, id);
    case Write(id, k, r) => WriteRowKeepsInv(s, id, k, r);
    case Ahead(id, k, r, row) => WriteAheadKeepsInv(s, id, k, r, row);
    case Over(id, k, r, row) => WriteOverKeepsInv(s, id, k, r, row);
    case Publish(id) => PublishKeepsInv(s, id);
    case SnapBack(id, k, computed) => SnapKeepsInv(s, id, k, computed);
    case Forget(id) => UnhashKeepsInv(s, id);
    case Replace(id, k, b, n) => ReplacePageKeepsInv(s, id, k, b, n);
    case Settle(id) => RestKeepsInv(s, id);
    case _ =>
  }

  lemma EntryNextKeepsInv(s: State, a: Step, t: State)
    requires Inv(s) && EntryEnabled(s, a) && EntryNext(s, a, t)
    ensures Inv(t)
  {
    match a
    case Admit(key, full, tail) => NewEntryKeepsInv(s, key, full, tail);
    case Discard(key) => RemoveEntryKeepsInv(s, key);
    case Take(id, key) => TakePageKeepsInv(s, id, key, s.seqs[id].table[|s.entries[key].blocks|]);
    case Clone(id, key, b) => TakeCloneKeepsInv(s, id, key, b);
    case Drop(key) => DropPageKeepsInv(s, key, s.entries[key].blocks[|s.entries[key].blocks| - 1]);
    case DropTail(key, c) => DropCloneKeepsInv(s, key, c);
    case CopyOver(id, key) => TailCopyIsLoad(s, id, key);
      var e := s.entries[key];
      var rows := Copied(s.blocks[e.blocks[e.full]], s.blocks[s.seqs[id].table[e.full]], e.tail);
      LoadPageKeepsInv(s, id, rows, |key|);
    case _ =>
  }

  /** The cache is in order, and the CPU holds what its requests had computed. */
  ghost predicate WorldOk(w: World) { Inv(w.kv) && SavedAll(w.kv, w.cpu) }

  /** Requests stay unless they leave, and their histories only grow. */
  ghost predicate HistoriesGrow(s: State, t: State, leaving: set<nat>) {
    && t.size == s.size
    && forall j :: j in s.seqs && j !in leaving ==> j in t.seqs && s.seqs[j].tokens <= t.seqs[j].tokens
  }

  lemma SeqNextGrows(s: State, a: Step, t: State)
    requires Inv(s) && SeqEnabled(s, a) && SeqNext(s, a, t)
    ensures HistoriesGrow(s, t, if a.Leave? then {a.id} else {})
  {
    hide Inv, PageOk;
  }

  lemma EntryNextGrows(s: State, a: Step, t: State)
    requires Inv(s) && EntryEnabled(s, a) && EntryNext(s, a, t)
    ensures HistoriesGrow(s, t, {})
  {
    hide Inv, PageOk;
  }

  lemma SavedAllKept(s: State, t: State, cpu: map<nat, Saved>, leaving: set<nat>)
    requires SavedAll(s, cpu) && HistoriesGrow(s, t, leaving) && forall id :: id in leaving ==> id !in cpu
    ensures SavedAll(t, cpu)
  {
    forall id | id in cpu ensures id in t.seqs && SavedOk(t.seqs[id], cpu[id], t.size) {
      SavedOkLonger(s.seqs[id], t.seqs[id], cpu[id], s.size);
    }
  }

  lemma SwapNextKeepsWorld(w: World, a: Step, x: World)
    requires WorldOk(w) && SwapEnabled(w, a) && SwapNext(w, a, x)
    ensures WorldOk(x)
  {
    hide Inv, PageOk, SavedPageOk;
    match a
    case Save(id) => SavedPages(w.kv, id);
    case BringBack(id) =>
      var v, k := w.cpu[id], |w.kv.seqs[id].table| - 1;
      ReloadIsLoad(w.kv, id, v);
      LoadPageKeepsInv(w.kv, id, v.pages[k], Restored(v, k + 1, w.kv.size));
      SavedAllKept(w.kv, x.kv, w.cpu, {});
    case _ =>
  }

  lemma NextKeepsWorld(w: World, a: Step, x: World)
    requires WorldOk(w) && Next(w, a, x) && !Harmful(a)
    ensures WorldOk(x)
  {
    hide Inv, SeqNext, EntryNext, SwapNext, SavedAll;
    if SwapEnabled(w, a) {
      SwapNextKeepsWorld(w, a, x);
    } else if SeqEnabled(w.kv, a) {
      SeqNextKeepsInv(w.kv, a, x.kv);
      SeqNextGrows(w.kv, a, x.kv);
      SavedAllKept(w.kv, x.kv, w.cpu, if a.Leave? then {a.id} else {});
    } else {
      EntryNextKeepsInv(w.kv, a, x.kv);
      EntryNextGrows(w.kv, a, x.kv);
      SavedAllKept(w.kv, x.kv, w.cpu, {});
    }
  }

  /** An empty cache of n pages. */
  ghost predicate Empty(s: State) {
    && s.size > 0 && s.index == map[] && s.seqs == map[] && s.entries == map[]
    && forall i :: 0 <= i < |s.blocks| ==>
         s.blocks[i].refs == 0 && s.blocks[i].hash == [] && s.blocks[i].owners == {} && |s.blocks[i].rows| == s.size
  }

  /** worlds[0] is empty, and each step leads from one world to the next. */
  ghost predicate Run(worlds: seq<World>, steps: seq<Step>) {
    && |worlds| == |steps| + 1 && Empty(worlds[0].kv) && worlds[0].cpu == map[]
    && forall i :: 0 <= i < |steps| ==> Next(worlds[i], steps[i], worlds[i + 1])
  }

  /** None of the first i steps harms anybody. */
  predicate Unharmed(steps: seq<Step>, i: nat) { forall j :: 0 <= j < i && j < |steps| ==> !Harmful(steps[j]) }

  /** The invariant holds in every state of every run, up to the first step that harms others. */
  lemma {:induction false} RunKeepsInv(worlds: seq<World>, steps: seq<Step>, i: nat)
    requires Run(worlds, steps) && i < |worlds| && Unharmed(steps, i)
    ensures WorldOk(worlds[i])
  {
    if i > 0 {
      RunKeepsInv(worlds, steps, i - 1);
      assert Next(worlds[i - 1], steps[i - 1], worlds[i]);
      NextKeepsWorld(worlds[i - 1], steps[i - 1], worlds[i]);
    }
  }

  /** In every such state, attention over a computed position of a request reads the KV row
      of that request's own history. */
  lemma RunsReadOwnHistory(worlds: seq<World>, steps: seq<Step>, i: nat, id: nat, k: nat, r: nat)
    requires Run(worlds, steps) && i < |worlds| && Unharmed(steps, i)
    requires var s := worlds[i].kv; id in s.seqs && r < s.size && Start(k, s.size) + r < s.seqs[id].computed
    ensures var s := worlds[i].kv;
            && k < |s.seqs[id].table| && s.seqs[id].table[k] < |s.blocks| && r < |s.blocks[s.seqs[id].table[k]].rows|
            && s.seqs[id].computed <= |s.seqs[id].tokens|
            && s.blocks[s.seqs[id].table[k]].rows[r] == s.seqs[id].tokens[..Start(k, s.size) + r + 1]
  {
    RunKeepsInv(worlds, steps, i);
    ReadsOwnHistory(worlds[i].kv, id, k, r);
  }

  /** In every such state, what the CPU holds of a swapped-out request are the rows of that
      request's own history. */
  lemma RunsSaveOwnHistory(worlds: seq<World>, steps: seq<Step>, i: nat, id: nat, k: nat, r: nat)
    requires Run(worlds, steps) && i < |worlds| && Unharmed(steps, i) && id in worlds[i].cpu
    requires r < worlds[i].kv.size && Start(k, worlds[i].kv.size) + r < worlds[i].cpu[id].computed
    ensures var w := worlds[i];
            && id in w.kv.seqs && w.cpu[id].computed <= |w.kv.seqs[id].tokens|
            && k < |w.cpu[id].pages| && r < |w.cpu[id].pages[k]|
            && w.cpu[id].pages[k][r] == w.kv.seqs[id].tokens[..Start(k, w.kv.size) + r + 1]
  {
    RunKeepsInv(worlds, steps, i);
    var w := worlds[i];
    assert SavedOk(w.kv.seqs[id], w.cpu[id], w.kv.size);
    if k >= |w.cpu[id].pages| { StartMonotone(|w.cpu[id].pages|, k, w.kv.size); }
    assert SavedPageOk(w.cpu[id].pages[k], k, w.kv.seqs[id].tokens, w.cpu[id].computed, w.kv.size);
  }

  lemma HolderIsOwner(s: State, b: nat, o: Owner)
    requires Inv(s) && b < |s.blocks| && Held(s, b, o)
    ensures o in s.blocks[b].owners
  {
    match o
    case OfSeq(id, k) => OwnedPage(s, id, k);
    case OfEntry(key, k) => OwnedEntryPage(s, key, b, o);
    case OfClone(key) => OwnedEntryPage(s, key, b, o);
  }

  /** In every such state, a page's reference count is the number of its holders: page
      tables, retained prefixes and tail clones.  So a page is never given out while it is held,
      and none is left over once it was released everywhere. */
  lemma RunsCountReferences(worlds: seq<World>, steps: seq<Step>, i: nat, b: nat)
    requires Run(worlds, steps) && i < |worlds| && Unharmed(steps, i) && b < |worlds[i].kv.blocks|
    ensures var s := worlds[i].kv; s.blocks[b].refs == |s.blocks[b].owners|
    ensures var s := worlds[i].kv; forall o :: o in s.blocks[b].owners <==> Held(s, b, o)
  {
    RunKeepsInv(worlds, steps, i);
    var s := worlds[i].kv;
    assert BlockOk(s.blocks[b], s.size);
    forall o | Held(s, b, o) ensures o in s.blocks[b].owners {
      HolderIsOwner(s, b, o);
    }
  }
}
