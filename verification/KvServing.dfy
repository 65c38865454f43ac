/** The life of many requests: the scheduler of prism_infer/engine/scheduler.py calls the block manager in
    whatever order its policy likes, and admits, computes, preempts and brings back requests by their state. */
module KvServing {
  import opened Wrappers
  import opened Paging
  import opened KvState
  import opened KvSteps
  import opened KvPublishSteps
  import opened KvSwap
  import opened KvRuns
  import opened KvCapacity
  import opened KvAdmission
  import opened KvDecode
  import opened KvSlots
  import opened KvManager
  import opened KvBudget

  /** A request in prefill remembers whether it was admitted through a retained prefix. */
  datatype Phase = Waiting | Prefilling(hit: bool) | Decoding | Swapped

  /** All rows but the newest are computed, on as many pages as they need. */
  predicate Ready(q: Sequence, size: nat)
    requires size > 0
  {
    q.computed + 1 == |q.tokens| && |q.table| == PagesFor(q.computed, size) && Caught(q, size)
  }

  /** What a request in a phase looks like, in the tables and on the CPU.  `lossless` holds until a request is
      sent back to be computed again. */
  predicate PhaseOk(phase: Phase, q: Sequence, saved: Option<Saved>, lossless: bool, size: nat)
    requires size > 0
  {
    match phase
    case Waiting => saved == None && Waits(q) && (lossless ==> |q.tokens| == q.prompt)
    case Prefilling(_) =>
      && saved == None && q.computed <= q.prompt && Caught(q, size)
      && PagesFor(q.prompt, size) <= |q.table| <= PagesFor(|q.tokens|, size)
      && (lossless ==> |q.tokens| == q.prompt)
    case Decoding => saved == None && Resumes(q, size) && (lossless ==> Ready(q, size))
    case Swapped =>
      && saved.Some? && Waits(q) && Resumes(AsSaved(q, saved.value), size)
      && (lossless ==> Ready(AsSaved(q, saved.value), size))
  }

  /** The request as it was when it was swapped out, but for the pages it was on. */
  function AsSaved(q: Sequence, v: Saved): Sequence {
    q.(computed := v.computed, published := v.published, table := seq(|v.pages|, _ => 0))
  }

  function SavedOf(cpu: map<nat, Saved>, id: nat): Option<Saved> { if id in cpu then Some(cpu[id]) else None }

  datatype Op =
    | Arrive(id: nat, prompt: Key, spans: seq<(nat, nat)>)
    | TakeIn(id: nat, keepClone: bool, rows: seq<nat>, batch: Batch, limits: Limits)
    | Chunk(id: nat, end: nat)
    | Finish(id: nat, token: Token)
    | Decode(id: nat, token: Token)
    | Preempt(id: nat)
    | Return(id: nat)
    | Leave(id: nat)

  /** What became of an operation: it was not its turn or there was no room, it was carried out, an exception of
      the source was raised, or a page was given a hash that need not, or does not, tell what it holds. */
  datatype Result = Passed | Done | Failed | Harmed

  // ----- what an operation does

  /** The pages, what the CPU holds, the phases, and who was sent back to be computed again. */
  datatype Snapshot = Snapshot(kv: State, cpu: map<nat, Saved>, slots: nat, phase: map<nat, Phase>, sentBack: set<nat>)

  ghost predicate InPhase(s: Snapshot, id: nat)
    requires s.kv.size > 0 && id in s.phase && id in s.kv.seqs
  {
    PhaseOk(s.phase[id], s.kv.seqs[id], SavedOf(s.cpu, id), id !in s.sentBack, s.kv.size)
  }

  ghost predicate SnapshotOk(s: Snapshot) {
    && s.kv.size > 1 && Good(s.kv) && Parked(s.kv, s.cpu) && |Slots(s.cpu)| <= s.slots
    && s.phase.Keys == s.kv.seqs.Keys && s.sentBack <= s.phase.Keys
    && forall id :: id in s.phase ==> InPhase(s, id)
  }

  /** Nothing about other requests changed. */
  ghost predicate Elsewhere(a: Snapshot, b: Snapshot, id: nat) {
    && b.kv.size == a.kv.size && b.slots == a.slots && b.kv.seqs.Keys - {id} == a.kv.seqs.Keys - {id}
    && (forall j :: j in a.kv.seqs && j != id ==> j in b.kv.seqs && b.kv.seqs[j] == a.kv.seqs[j])
    && b.phase - {id} == a.phase - {id} && b.cpu - {id} == a.cpu - {id} && b.sentBack - {id} == a.sentBack - {id}
  }

  /** Only request id changed, and of it the phase and what the pages hold. */
  ghost predicate Moved(a: Snapshot, b: Snapshot, id: nat, phase: Phase) {
    && Elsewhere(a, b, id) && b.phase == a.phase[id := phase] && id in a.kv.seqs && id in b.kv.seqs
    && var q0, q := a.kv.seqs[id], b.kv.seqs[id];
       q.prompt == q0.prompt && q.spans == q0.spans && q.boundary == q0.boundary
  }

  ghost predicate InPrefill(a: Snapshot, id: nat) { id in a.phase && id in a.kv.seqs && a.phase[id].Prefilling? }

  ghost predicate InDecode(a: Snapshot, id: nat) { id in a.phase && id in a.kv.seqs && a.phase[id].Decoding? }

  ghost predicate Arrived(a: Snapshot, b: Snapshot, r: Result, id: nat, prompt: Key, spans: seq<(nat, nat)>) {
    if id in a.phase || prompt == [] || !SpansOk(spans, |prompt|) then r == Passed && b == a
    else
      && r == Done && Elsewhere(a, b, id) && b.phase == a.phase[id := Waiting] && b.cpu == a.cpu
      && b.sentBack == a.sentBack && id in b.kv.seqs
      && b.kv.seqs[id] == Sequence(prompt, |prompt|, spans, BoundaryOf(spans, |prompt|), 0, 0, 0, 0, [])
  }

  /** Admission ends exactly as the steps of KvBudget say.  An exception leaves the request waiting. */
  ghost predicate TakenIn(a: Snapshot, b: Snapshot, r: Result, id: nat, rows: seq<nat>, batch: Batch, limits: Limits)
    requires SnapshotOk(a)
  {
    if !(id in a.phase && a.phase[id].Waiting? && |rows| == |a.kv.seqs[id].spans| && Open(batch, limits))
    then r == Passed && b == a
    else
      var q0, hit := a.kv.seqs[id], OwnKey(a.kv.seqs[id]) in a.kv.entries;
      match AdmissionOf(a.kv, id, 0, rows, batch, limits)
      case Deferred => r == Passed && b == a
      case Admitted =>
        && r == Done && Moved(a, b, id, Prefilling(hit)) && b.cpu == a.cpu && b.sentBack == a.sentBack
        && var q := b.kv.seqs[id];
           && q.tokens == q0.tokens && q.computed == ReusedPrefix(a.kv, id)
           && |q.table| == PagesFor(if hit then q0.prompt else |q0.tokens|, a.kv.size)
      case _ => r == Failed && b == a.(kv := b.kv) && b.kv.size == a.kv.size && b.kv.seqs == a.kv.seqs
  }

  ghost predicate Chunked(a: Snapshot, b: Snapshot, r: Result, id: nat, end: nat) {
    if InPrefill(a, id) && a.kv.seqs[id].computed <= end <= a.kv.seqs[id].prompt then
      && r == Done && Moved(a, b, id, a.phase[id]) && b.cpu == a.cpu && b.sentBack == a.sentBack
      && var q0, q := a.kv.seqs[id], b.kv.seqs[id]; q == q0.(computed := end, published := q.published)
    else r == Passed && b == a
  }

  /** Retaining the prefix raises exactly for a request that has output and was not admitted through it. */
  ghost predicate Finished(a: Snapshot, b: Snapshot, r: Result, id: nat, token: Token) {
    if InPrefill(a, id) && a.kv.seqs[id].computed == a.kv.seqs[id].prompt then
      var q0 := a.kv.seqs[id];
      if !a.phase[id].hit && q0.boundary > 0 && |q0.tokens| != q0.prompt then r == Failed && b == a
      else
        && r == Done && Moved(a, b, id, Decoding) && b.cpu == a.cpu && b.sentBack == a.sentBack
        && b.kv.seqs[id] == q0.(tokens := q0.tokens + [token])
    else r == Passed && b == a
  }

  /** A decode step is carried out, raises or harms exactly as KvManager says; where the order of evictions decides
      whether a row strays, either. */
  ghost predicate Stepped(a: Snapshot, b: Snapshot, r: Result, id: nat, token: Token)
    requires SnapshotOk(a)
  {
    if InDecode(a, id) && CanAppend(a.kv, id) then
      var q0, size := a.kv.seqs[id], a.kv.size;
      && r != Passed && Elsewhere(a, b, id) && b.phase == a.phase && b.cpu == a.cpu && b.sentBack == a.sentBack
      && id in b.kv.seqs && q0.tokens != []
      && (!CanPlan(a.kv, id) ==> r == Failed)
      && (CanPlan(a.kv, id) && Short(q0, size) && CompletesPage(q0, size) ==> r == Failed || r == Harmed)
      && (r == Failed ==> !CanPlan(a.kv, id) || (Short(q0, size) && CompletesPage(q0, size)))
      && (CanPlan(a.kv, id) && !Short(q0, size) && MissesRows(q0) && CompletesPage(q0, size) ==> r == Harmed)
      && (CanPlan(a.kv, id) && StrayCertain(a.kv, id) ==> r == Harmed)
      && (r == Harmed ==>
          && CanPlan(a.kv, id) && MissesRows(q0)
          && (StrayPossible(a.kv, id) || (!Short(q0, size) && CompletesPage(q0, size))))
      && var q := b.kv.seqs[id];
         && (r == Done ==> q.tokens == q0.tokens + [token] && (MissesRows(q) <==> MissesRows(q0)))
         && (r == Failed ==> q.tokens == q0.tokens)
    else r == Passed && b == a
  }

  /** To the CPU, as it is, if that has a slot for each page; else back to the waiting queue without pages. */
  ghost predicate Preempted(a: Snapshot, b: Snapshot, r: Result, id: nat)
    requires SnapshotOk(a)
  {
    if InDecode(a, id) then
      var q0, fits := a.kv.seqs[id], |Slots(a.cpu)| + |a.kv.seqs[id].table| <= a.slots;
      && r == Done && Moved(a, b, id, if fits then Swapped else Waiting)
      && Waits(b.kv.seqs[id]) && b.kv.seqs[id].tokens == q0.tokens
      && b.sentBack == (if fits then a.sentBack else a.sentBack + {id})
      && if fits then
           (SavedPages(a.kv, id);
            SavedOf(b.cpu, id) == Some(Saved(q0.computed, q0.published, PagesOf(a.kv, id))))
         else b.cpu == a.cpu
    else r == Passed && b == a
  }

  /** It returns exactly if there is room, as it was but for the pages it is on. */
  ghost predicate Returned(a: Snapshot, b: Snapshot, r: Result, id: nat)
    requires SnapshotOk(a)
  {
    if id in a.phase && a.phase[id].Swapped? && id in a.cpu && |a.cpu[id].pages| <= |Available(a.kv, {})| then
      && r == Done && Moved(a, b, id, Decoding) && b.cpu == a.cpu - {id} && b.sentBack == a.sentBack
      && var q, v := b.kv.seqs[id], a.cpu[id];
         && q.tokens == a.kv.seqs[id].tokens && q.computed == v.computed && q.published == v.published
         && |q.table| == |v.pages|
    else r == Passed && b == a
  }

  ghost predicate Left(a: Snapshot, b: Snapshot, r: Result, id: nat) {
    if id in a.phase then
      && r == Done && Elsewhere(a, b, id) && id !in b.kv.seqs
      && b.phase == a.phase - {id} && b.cpu == a.cpu - {id} && b.sentBack == a.sentBack - {id}
    else r == Passed && b == a
  }

  ghost predicate Effect(op: Op, a: Snapshot, b: Snapshot, r: Result)
    requires SnapshotOk(a)
  {
    match op
    case Arrive(id, prompt, spans) => Arrived(a, b, r, id, prompt, spans)
    case TakeIn(id, _, rows, batch, limits) => TakenIn(a, b, r, id, rows, batch, limits)
    case Chunk(id, end) => Chunked(a, b, r, id, end)
    case Finish(id, token) => Finished(a, b, r, id, token)
    case Decode(id, token) => Stepped(a, b, r, id, token)
    case Preempt(id) => Preempted(a, b, r, id)
    case Return(id) => Returned(a, b, r, id)
    case Leave(id) => Left(a, b, r, id)
  }

  // ----- the invariant

  /** It is enough to look at the request of the operation. */
  lemma StaysOk(a: Snapshot, b: Snapshot, id: nat)
    requires SnapshotOk(a) && Elsewhere(a, b, id)
    requires Good(b.kv) && Parked(b.kv, b.cpu) && |Slots(b.cpu)| <= b.slots
    requires b.phase.Keys == b.kv.seqs.Keys && b.sentBack <= b.phase.Keys && (id in b.phase ==> InPhase(b, id))
    ensures SnapshotOk(b)
  {
    hide Good, Parked, Slots, PhaseOk;
    forall j | j in b.phase ensures InPhase(b, j) {
      if j != id {
        assert j in b.phase - {id} && j in a.phase && b.phase[j] == (b.phase - {id})[j] == a.phase[j];
        assert j in b.cpu <==> j in b.cpu - {id};
        assert j in a.cpu <==> j in a.cpu - {id};
        assert j in b.cpu ==> b.cpu[j] == (b.cpu - {id})[j] == a.cpu[j];
        assert j in b.sentBack - {id} <==> j in b.sentBack;
        assert j in a.sentBack - {id} <==> j in a.sentBack;
        assert InPhase(a, j);
      }
    }
  }

  lemma SnapshotPhase(s: Snapshot, id: nat)
    requires SnapshotOk(s) && id in s.phase
    ensures id in s.kv.seqs && InPhase(s, id) && Shape(s.kv.seqs[id]) && (id in s.cpu <==> s.phase[id].Swapped?)
  {
    hide Inv, SpansOk, Parked, Slots;
  }

  // ----- phases

  lemma NotSaved(s: State, cpu: map<nat, Saved>, id: nat)
    requires Parked(s, cpu) && id !in s.seqs
    ensures id !in cpu
  {
  }

  lemma NewWaits(q: Sequence, size: nat)
    requires size > 0 && Waits(q) && |q.tokens| == q.prompt
    ensures PhaseOk(Waiting, q, None, true, size)
  {
  }

  lemma WaitsInPhase(s: Snapshot, id: nat)
    requires s.kv.size > 0 && id in s.phase && id in s.kv.seqs && InPhase(s, id) && s.phase[id].Waiting?
    ensures Waits(s.kv.seqs[id])
  {
  }

  lemma AdmittedPhase(a: Snapshot, q: Sequence, id: nat, hit: bool)
    requires a.kv.size > 0 && id in a.phase && id in a.kv.seqs && InPhase(a, id) && a.phase[id].Waiting?
    requires q.tokens == a.kv.seqs[id].tokens && q.prompt == a.kv.seqs[id].prompt <= |q.tokens|
    requires q.computed <= q.prompt && Caught(q, a.kv.size)
    requires |q.table| == PagesFor(if hit then q.prompt else |q.tokens|, a.kv.size)
    ensures PhaseOk(Prefilling(hit), q, None, id !in a.sentBack, a.kv.size)
  {
    PagesMonotone(q.prompt, |q.tokens|, a.kv.size);
  }

  lemma PrefilledPhase(s: Snapshot, id: nat)
    requires s.kv.size > 0 && id in s.phase && id in s.kv.seqs && InPhase(s, id) && s.phase[id].Prefilling?
    ensures Caught(s.kv.seqs[id], s.kv.size) && s.kv.seqs[id].computed <= s.kv.seqs[id].prompt
    ensures PagesFor(s.kv.seqs[id].prompt, s.kv.size) <= |s.kv.seqs[id].table|
  {
  }

  lemma ChunkedPhase(a: Snapshot, q: Sequence, id: nat)
    requires a.kv.size > 0 && id in a.phase && id in a.kv.seqs && InPhase(a, id) && a.phase[id].Prefilling?
    requires q == a.kv.seqs[id].(computed := q.computed, published := q.published)
    requires q.computed <= q.prompt && Caught(q, a.kv.size)
    ensures PhaseOk(a.phase[id], q, None, id !in a.sentBack, a.kv.size)
  {
  }

  lemma FinishedPhase(a: Snapshot, q: Sequence, id: nat, token: Token)
    requires a.kv.size > 0 && id in a.phase && id in a.kv.seqs && InPhase(a, id) && a.phase[id].Prefilling?
    requires 0 < q.prompt <= |a.kv.seqs[id].tokens| && a.kv.seqs[id].computed == q.prompt
    requires q == a.kv.seqs[id].(tokens := a.kv.seqs[id].tokens + [token])
    ensures PhaseOk(Decoding, q, None, id !in a.sentBack, a.kv.size)
  {
    hide PagesFor;
    PagesCover(q.prompt, a.kv.size);
  }

  lemma DecodingPhase(s: Snapshot, id: nat)
    requires s.kv.size > 0 && id in s.phase && id in s.kv.seqs && InPhase(s, id) && s.phase[id].Decoding?
    ensures Resumes(s.kv.seqs[id], s.kv.size) && (id !in s.sentBack ==> Ready(s.kv.seqs[id], s.kv.size))
  {
  }

  /** What decides the result of a step. */
  lemma StepResult(s: Snapshot, id: nat)
    requires SnapshotOk(s) && id in s.phase && s.phase[id].Decoding?
    ensures id in s.kv.seqs && s.kv.seqs[id].tokens != []
    ensures Short(s.kv.seqs[id], s.kv.size) ==> MissesRows(s.kv.seqs[id])
    ensures StrayPossible(s.kv, id) ==> Short(s.kv.seqs[id], s.kv.size)
    ensures id !in s.sentBack ==> !MissesRows(s.kv.seqs[id]) && (CanAppend(s.kv, id) ==> CanPlan(s.kv, id))
  {
    hide Inv, SpansOk, BoundaryOf, Parked, Slots, PagesFor, CanAppend, CanPlan, Whole, OwnTail;
    SnapshotPhase(s, id);
    SeqFits(s.kv, id);
    if Short(s.kv.seqs[id], s.kv.size) { ShortStays(s.kv.seqs[id], s.kv.size); }
    if id !in s.sentBack { NothingStops(s.kv, id); }
  }

  lemma SteppedPhase(a: Snapshot, q: Sequence, id: nat)
    requires a.kv.size > 0 && id in a.phase && id in a.kv.seqs && InPhase(a, id) && a.phase[id].Decoding?
    requires a.kv.seqs[id].tokens != [] && Resumes(q, a.kv.size)
    requires id !in a.sentBack ==> (Short(q, a.kv.size) <==> Short(a.kv.seqs[id], a.kv.size)) && !MissesRows(q)
    ensures PhaseOk(Decoding, q, None, id !in a.sentBack, a.kv.size)
  {
    hide PagesFor;
  }

  lemma SwappedPhase(a: Snapshot, q: Sequence, v: Saved, id: nat)
    requires a.kv.size > 0 && id in a.phase && id in a.kv.seqs && InPhase(a, id) && a.phase[id].Decoding?
    requires Waits(q) && q.tokens == a.kv.seqs[id].tokens && q.prompt == a.kv.seqs[id].prompt
    requires v.computed == a.kv.seqs[id].computed && v.published == a.kv.seqs[id].published
    requires |v.pages| == |a.kv.seqs[id].table|
    ensures PhaseOk(Swapped, q, Some(v), id !in a.sentBack, a.kv.size)
  {
    hide PagesFor;
  }

  lemma SwappedElsewhere(a: Snapshot, b: Snapshot, id: nat)
    requires OthersKept(a.kv, b.kv, id) && id !in a.cpu && b.cpu.Keys == a.cpu.Keys + {id} && b.slots == a.slots
    requires forall j :: j in a.cpu ==> b.cpu[j] == a.cpu[j]
    requires b.phase == a.phase[id := Swapped] && b.sentBack == a.sentBack
    ensures Elsewhere(a, b, id) && Moved(a, b, id, Swapped)
    ensures b.kv.seqs.Keys == a.kv.seqs.Keys && b.kv.size == a.kv.size
    ensures b.kv.seqs[id].tokens == a.kv.seqs[id].tokens && b.kv.seqs[id].prompt == a.kv.seqs[id].prompt
  {
  }

  lemma SentBackPhase(q: Sequence, size: nat)
    requires size > 0 && Waits(q)
    ensures PhaseOk(Waiting, q, None, false, size)
  {
  }

  lemma ReturnedPhase(a: Snapshot, q: Sequence, id: nat)
    requires a.kv.size > 0 && id in a.phase && id in a.kv.seqs && InPhase(a, id) && a.phase[id].Swapped? && id in a.cpu
    requires q.tokens == a.kv.seqs[id].tokens && q.prompt == a.kv.seqs[id].prompt
    requires q.computed == a.cpu[id].computed && q.published == a.cpu[id].published
    requires |q.table| == |a.cpu[id].pages|
    ensures PhaseOk(Decoding, q, None, id !in a.sentBack, a.kv.size)
  {
    hide PagesFor;
  }

  class Server {
    const manager: BlockManager
    var phase: map<nat, Phase>
    var sentBack: set<nat>

    ghost function Now(): Snapshot
      reads this, manager
    {
      Snapshot(manager.kv, manager.cpu, manager.slots, phase, sentBack)
    }

    ghost predicate Valid()
      reads this, manager
    {
      SnapshotOk(Now())
    }

    constructor (manager: BlockManager)
      requires manager.Valid() && manager.kv.size > 1 && manager.kv.seqs == map[]
      ensures Valid() && this.manager == manager && sentBack == {} && phase == map[]
    {
      this.manager, phase, sentBack := manager, map[], {};
    }

    /** A new request waits. */
    method DoArrive(id: nat, prompt: Key, spans: seq<(nat, nat)>) returns (r: Result)
      requires Valid()
      modifies this`phase, manager`kv
      ensures Valid() && Arrived(old(Now()), Now(), r, id, prompt, spans)
    {
      hide Good, Parked, Slots, SpansOk, PhaseOk;
      if id in phase || prompt == [] || !SpansOk(spans, |prompt|) { return Passed; }
      NotSaved(manager.kv, manager.cpu, id);
      manager.Arrive(id, prompt, spans);
      phase := phase[id := Waiting];
      NewWaits(manager.kv.seqs[id], manager.kv.size);
      StaysOk(old(Now()), Now(), id);
      r := Done;
    }

    /** An attempt to admit a waiting request. */
    method DoTakeIn(id: nat, keepClone: bool, rows: seq<nat>, batch: Batch, limits: Limits) returns (r: Result)
      requires Valid()
      modifies this`phase, manager`kv
      ensures Valid() && TakenIn(old(Now()), Now(), r, id, rows, batch, limits)
    {
      hide Good, Parked, Slots, AdmissionOf, ReusedPrefix, PagesFor, Open, OwnKey, PhaseOk;
      if !(id in phase && phase[id].Waiting? && |rows| == |manager.kv.seqs[id].spans| && Open(batch, limits)) {
        return Passed;
      }
      SnapshotPhase(Now(), id);
      WaitsInPhase(Now(), id);
      var hit := OwnKey(manager.kv.seqs[id]) in manager.kv.entries;
      AdmittedIsUnfinished(manager.kv, id, rows, batch, limits);
      var a := TryAdmit(manager, id, keepClone, 0, rows, batch, limits);
      if a == Deferred { return Passed; }
      if a != Admitted {
        StaysOk(old(Now()), Now(), id);
        return Failed;
      }
      AdmittedPhase(old(Now()), manager.kv.seqs[id], id, hit);
      phase := phase[id := Prefilling(hit)];
      StaysOk(old(Now()), Now(), id);
      r := Done;
    }

    /** A chunk of the prompt. */
    method DoChunk(id: nat, end: nat) returns (r: Result)
      requires Valid()
      modifies manager`kv
      ensures Valid() && Chunked(old(Now()), Now(), r, id, end)
    {
      hide Good, Parked, Slots, PagesFor, Caught;
      if !(id in phase && phase[id].Prefilling? && manager.kv.seqs[id].computed <= end <= manager.kv.seqs[id].prompt) {
        return Passed;
      }
      SnapshotPhase(Now(), id);
      PrefilledPhase(Now(), id);
      manager.Prefill(id, end);
      ChunkedPhase(old(Now()), manager.kv.seqs[id], id);
      StaysOk(old(Now()), Now(), id);
      r := Done;
    }

    /** The prompt is computed: its prefix may be retained, and the first token is sampled. */
    method DoFinish(id: nat, token: Token) returns (r: Result)
      requires Valid()
      modifies this`phase, manager`kv
      ensures Valid() && Finished(old(Now()), Now(), r, id, token)
    {
      hide Good, Parked, Slots, PagesFor, PhaseOk;
      if !(id in phase && phase[id].Prefilling? && manager.kv.seqs[id].computed == manager.kv.seqs[id].prompt) {
        return Passed;
      }
      SnapshotPhase(Now(), id);
      PrefilledPhase(Now(), id);
      var stored := manager.StorePrefix(id, phase[id].hit);
      if stored == Raised { return Failed; }
      manager.AppendSampled(id, token);
      phase := phase[id := Decoding];
      FinishedPhase(old(Now()), manager.kv.seqs[id], id, token);
      StaysOk(old(Now()), Now(), id);
      r := Done;
    }

    /** A decode step, if the scheduler's test allows one. */
    method DoDecode(id: nat, token: Token) returns (r: Result)
      requires Valid()
      modifies manager`kv
      ensures Stepped(old(Now()), Now(), r, id, token) && (r != Harmed ==> Valid())
    {
      hide Good, Parked, Slots, CanAppend, CanPlan, StrayPossible, StrayCertain, MissesRows, CompletesPage, PhaseOk,
        Resumes, Short;
      if !(id in phase && phase[id].Decoding? && CanAppend(manager.kv, id)) { return Passed; }
      SnapshotPhase(Now(), id);
      DecodingPhase(Now(), id);
      ResumesTrails(manager.kv.seqs[id], manager.kv.size);
      var o, harm := manager.DecodeStep(id, token);
      r := if harm != NoHarm then Harmed else if o != Appended then Failed else Done;
      StepResult(old(Now()), id);
      if r != Harmed {
        SteppedPhase(old(Now()), manager.kv.seqs[id], id);
        StaysOk(old(Now()), Now(), id);
      }
    }

    /** Preemption: to the CPU if that has room, else back to the waiting queue. */
    method DoPreempt(id: nat) returns (r: Result)
      requires Valid()
      modifies this, manager
      ensures Valid() && Preempted(old(Now()), Now(), r, id)
    {
      hide Good, Parked, Slots, PhaseOk, Moved;
      if !(id in phase && phase[id].Decoding?) { return Passed; }
      SnapshotPhase(Now(), id);
      if |Slots(manager.cpu)| + |manager.kv.seqs[id].table| <= manager.slots {
        SwapAway(id);
      } else {
        SendBack(id);
      }
      r := Done;
    }

    method SwapAway(id: nat)
      requires Valid() && InDecode(Now(), id)
      requires |Slots(manager.cpu)| + |manager.kv.seqs[id].table| <= manager.slots
      modifies this`phase, manager
      ensures Valid() && Moved(old(Now()), Now(), id, Swapped) && sentBack == old(sentBack)
      ensures Waits(manager.kv.seqs[id]) && manager.kv.seqs[id].tokens == old(manager.kv).seqs[id].tokens
      ensures var q0 := old(manager.kv).seqs[id];
              && id in manager.cpu
              && (SavedPages(old(manager.kv), id);
                  manager.cpu[id] == Saved(q0.computed, q0.published, PagesOf(old(manager.kv), id)))
    {
      hide Good, Parked, Slots, PhaseOk, Resumes, Moved, Elsewhere, OthersKept;
      SnapshotPhase(Now(), id);
      DecodingPhase(Now(), id);
      ResumesTrails(manager.kv.seqs[id], manager.kv.size);
      var swapped := manager.SwapOut(id);
      phase := phase[id := Swapped];
      SwappedElsewhere(old(Now()), Now(), id);
      SwappedPhase(old(Now()), manager.kv.seqs[id], manager.cpu[id], id);
      StaysOk(old(Now()), Now(), id);
    }

    method SendBack(id: nat)
      requires Valid() && InDecode(Now(), id)
      modifies this, manager`kv
      ensures Valid() && Moved(old(Now()), Now(), id, Waiting) && sentBack == old(sentBack) + {id}
      ensures Waits(manager.kv.seqs[id]) && manager.kv.seqs[id].tokens == old(manager.kv).seqs[id].tokens
    {
      hide Good, Parked, Slots, PhaseOk;
      SnapshotPhase(Now(), id);
      manager.Release(id);
      SentBackPhase(manager.kv.seqs[id], manager.kv.size);
      phase, sentBack := phase[id := Waiting], sentBack + {id};
      StaysOk(old(Now()), Now(), id);
    }

    /** A swapped-out request returns if there is room. */
    method DoReturn(id: nat) returns (r: Result)
      requires Valid()
      modifies this`phase, manager
      ensures Valid() && Returned(old(Now()), Now(), r, id)
    {
      hide Inv, Shape, Whole, Parked, Slots, PhaseOk, Resumes;
      if !(id in phase && phase[id].Swapped?) { return Passed; }
      SnapshotPhase(Now(), id);
      CapacityIsAvailable(manager.kv, {});
      if |manager.cpu[id].pages| > |FreePages(manager.kv)| + |Reclaimable(manager.kv, {})| { return Passed; }
      var ok := manager.SwapIn(id);
      ReturnedPhase(old(Now()), manager.kv.seqs[id], id);
      phase := phase[id := Decoding];
      StaysOk(old(Now()), Now(), id);
      r := Done;
    }

    /** A request is finished or cancelled. */
    method DoLeave(id: nat) returns (r: Result)
      requires Valid()
      modifies this, manager
      ensures Valid() && Left(old(Now()), Now(), r, id)
    {
      hide Good, Parked, Slots, PhaseOk;
      if id !in phase { return Passed; }
      manager.Leave(id);
      phase, sentBack := phase - {id}, sentBack - {id};
      StaysOk(old(Now()), Now(), id);
      r := Done;
    }

    /** One operation.  Whatever it is, it has its effect, and nothing else changes; the cache and all requests
        stay in order unless a row or a hash harms somebody. */
    method Do(op: Op) returns (r: Result)
      requires Valid()
      modifies this, manager
      ensures Effect(op, old(Now()), Now(), r) && (r != Harmed ==> Valid())
    {
      hide SnapshotOk, Arrived, TakenIn, Chunked, Finished, Stepped, Preempted, Returned, Left;
      match op {
        case Arrive(id, prompt, spans) => r := DoArrive(id, prompt, spans);
        case TakeIn(id, keepClone, rows, batch, limits) => r := DoTakeIn(id, keepClone, rows, batch, limits);
        case Chunk(id, end) => r := DoChunk(id, end);
        case Finish(id, token) => r := DoFinish(id, token);
        case Decode(id, token) => r := DoDecode(id, token);
        case Preempt(id) => r := DoPreempt(id);
        case Return(id) => r := DoReturn(id);
        case Leave(id) => r := DoLeave(id);
      }
    }

    /** Any operations on any number of requests, in any order, until an exception or harm ends them. */
    method Serve(ops: seq<Op>) returns (results: seq<Result>, ghost trace: seq<Snapshot>)
      requires Valid()
      modifies this, manager
      ensures Trace(ops, results, trace) && trace[0] == old(Now()) && trace[|results|] == Now()
      ensures |results| < |ops| ==> results != [] && Ends(results[|results| - 1])
      ensures forall i :: 0 <= i < |results| - 1 ==> !Ends(results[i])
      ensures (results == [] || results[|results| - 1] != Harmed) ==> Valid()
    {
      hide SnapshotOk, Effect;
      results, trace := [], [Now()];
      while |results| < |ops| && (results == [] || !Ends(results[|results| - 1]))
        invariant Trace(ops, results, trace) && trace[0] == old(Now()) && trace[|results|] == Now()
        invariant forall i :: 0 <= i < |results| - 1 ==> !Ends(results[i])
        invariant (results == [] || results[|results| - 1] != Harmed) ==> Valid()
        decreases |ops| - |results|
      {
        var r := Do(ops[|results|]);
        results, trace := results + [r], trace + [Now()];
      }
    }
  }

  predicate Ends(r: Result) { r == Failed || r == Harmed }

  /** What the operations made of the first snapshot, one after the other. */
  ghost predicate Trace(ops: seq<Op>, results: seq<Result>, trace: seq<Snapshot>) {
    && |results| <= |ops| && |trace| == |results| + 1
    && forall i :: 0 <= i < |results| ==> SnapshotOk(trace[i]) && Effect(ops[i], trace[i], trace[i + 1], results[i])
  }

  // ----- whole runs

  /** In every snapshot a request that decodes and was never sent back has its complete history. */
  lemma HonestIsReady(s: Snapshot, id: nat)
    requires SnapshotOk(s) && InDecode(s, id) && id !in s.sentBack
    ensures DecodeReady(s.kv, id)
  {
    hide Good, Parked, Slots, PagesFor;
    SnapshotPhase(s, id);
    DecodingPhase(s, id);
  }

  /** The one exception that a request can meet which was never sent back: prompts are not chunked, its prefix is
      retained, and the walk found more than that prefix. */
  ghost predicate Unlucky(op: Op, a: Snapshot) {
    && op.TakeIn? && a.kv.size > 0 && op.id in a.kv.seqs && OwnKey(a.kv.seqs[op.id]) in a.kv.entries
    && !op.limits.chunked && CachedPrefix(a.kv, op.id) > a.kv.seqs[op.id].boundary
  }

  /** A request that was never sent back harms nobody and meets no other exception. */
  lemma HonestEffect(op: Op, a: Snapshot, b: Snapshot, r: Result)
    requires SnapshotOk(a) && Effect(op, a, b, r) && op.id !in a.sentBack
    ensures r != Harmed && (r == Failed ==> Unlucky(op, a))
  {
    hide Good, Parked, Slots, CanAppend, CanPlan, AdmissionOf, CachedPrefix, StrayPossible, StrayCertain, Moved,
      Elsewhere, OwnKey, HitsPastPrompt;
    if op.id in a.phase { SnapshotPhase(a, op.id); }
    match op
    case TakeIn(id, _, rows, batch, limits) =>
      if r == Failed {
        HonestAdmission(a.kv, id, rows, batch, limits);
      }
    case Decode(id, _) =>
      if r != Passed { StepResult(a, id); }
    case _ =>
  }

  lemma HonestAdmission(s: State, id: nat, rows: seq<nat>, b: Batch, l: Limits)
    requires Good(s) && id in s.seqs && |rows| == |s.seqs[id].spans| && Open(b, l)
    requires |s.seqs[id].tokens| == s.seqs[id].prompt
    requires AdmissionOf(s, id, 0, rows, b, l) != Deferred && AdmissionOf(s, id, 0, rows, b, l) != Admitted
    ensures s.size > 0 && OwnKey(s.seqs[id]) in s.entries && !l.chunked && CachedPrefix(s, id) > s.seqs[id].boundary
  {
    hide Good, CanAllocate, HitsPastPrompt, CachedPrefix, AdmissionOf;
    GoodShapeOf(s, id);
    AdmissionRaisesIff(s, id, rows, b, l);
    FreshAdmission(s, id, rows, b, l);
  }

  /** The CPU has room for the pages of a request that is preempted. */
  ghost predicate Fits(op: Op, a: Snapshot) {
    op.Preempt? && InDecode(a, op.id) ==> |Slots(a.cpu)| + |a.kv.seqs[op.id].table| <= a.slots
  }

  lemma NobodySentBack(op: Op, a: Snapshot, b: Snapshot, r: Result)
    requires SnapshotOk(a) && Effect(op, a, b, r) && a.sentBack == {} && Fits(op, a)
    ensures b.sentBack == {}
  {
    hide Good, Parked, Slots, CanAppend, CanPlan, AdmissionOf, StrayPossible, StrayCertain, PhaseOk, ReusedPrefix;
  }

  /** As long as the CPU has room for every request that is preempted, nobody is sent back, so no run harms anybody,
      and the one exception is that of admission with a retained prefix. */
  lemma {:induction false} HonestRun(ops: seq<Op>, results: seq<Result>, trace: seq<Snapshot>, i: nat)
    requires Trace(ops, results, trace) && trace[0].sentBack == {} && i <= |results|
    requires forall j :: 0 <= j < i ==> Fits(ops[j], trace[j])
    ensures trace[i].sentBack == {}
    ensures forall j :: 0 <= j < i ==> results[j] != Harmed && (results[j] == Failed ==> Unlucky(ops[j], trace[j]))
  {
    hide SnapshotOk, Effect, Fits, Unlucky;
    if i > 0 {
      HonestRun(ops, results, trace, i - 1);
      HonestEffect(ops[i - 1], trace[i - 1], trace[i], results[i - 1]);
      NobodySentBack(ops[i - 1], trace[i - 1], trace[i], results[i - 1]);
    }
  }

  /** The token that an operation adds to a request. */
  function Gained(op: Op, r: Result, id: nat): Key {
    if r == Done && (op.Finish? || op.Decode?) && op.id == id then [op.token] else []
  }

  function Sampled(ops: seq<Op>, results: seq<Result>, id: nat, i: nat): Key
    requires i <= |results| <= |ops|
  {
    if i == 0 then [] else Sampled(ops, results, id, i - 1) + Gained(ops[i - 1], results[i - 1], id)
  }

  lemma EffectOnTokens(op: Op, a: Snapshot, b: Snapshot, r: Result, id: nat)
    requires SnapshotOk(a) && Effect(op, a, b, r) && r != Harmed && id in a.kv.seqs && op != Op.Leave(id)
    ensures id in b.kv.seqs && b.kv.seqs[id].tokens == a.kv.seqs[id].tokens + Gained(op, r, id)
  {
    hide Good, Parked, Slots, CanAppend, CanPlan, AdmissionOf, StrayPossible, StrayCertain, PhaseOk, ReusedPrefix,
      SpansOk;
    assert id in a.phase;
    assert a.kv.seqs[id].tokens + [] == a.kv.seqs[id].tokens;
    if op.id != id && b != a {
      assert Elsewhere(a, b, op.id) || b.kv.seqs == a.kv.seqs;
    }
  }

  /** Whatever happens to a request, preempted, swapped, sent back or refused: its history is its prompt and the
      tokens that were sampled for it, in order. */
  lemma {:induction false} HistoryIsSampled(ops: seq<Op>, results: seq<Result>, trace: seq<Snapshot>, id: nat, i: nat)
    requires Trace(ops, results, trace) && id in trace[0].kv.seqs && i <= |results|
    requires forall j :: 0 <= j < i ==> results[j] != Harmed && ops[j] != Op.Leave(id)
    ensures id in trace[i].kv.seqs
    ensures trace[i].kv.seqs[id].tokens == trace[0].kv.seqs[id].tokens + Sampled(ops, results, id, i)
  {
    hide SnapshotOk, Effect;
    if i > 0 {
      HistoryIsSampled(ops, results, trace, id, i - 1);
      EffectOnTokens(ops[i - 1], trace[i - 1], trace[i], results[i - 1], id);
    }
  }
}
