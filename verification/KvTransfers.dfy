/** Deferred KV transfers of a decode step.  The scheduler (prism_infer/engine/scheduler.py) updates
    page tables while it plans; the copies it asks for are executed later and in another order
    (prism_infer/engine/executor.py): all swap-ins, then all swap-outs, then the copies on write. */
module KvTransfers {
  import opened FiniteSets

  type Page = int

  /** The payload of the GPU pages and of the CPU swap slots. */
  datatype Device = Device(gpu: seq<Page>, cpu: seq<Page>)

  datatype Move = In(slot: nat, page: nat) | Out(page: nat, slot: nat) | Copy(source: nat, page: nat)

  function Do(d: Device, m: Move): Device {
    match m
    case In(c, g) => if c < |d.cpu| && g < |d.gpu| then d.(gpu := d.gpu[g := d.cpu[c]]) else d
    case Out(g, c) => if c < |d.cpu| && g < |d.gpu| then d.(cpu := d.cpu[c := d.gpu[g]]) else d
    case Copy(s, g) => if s < |d.gpu| && g < |d.gpu| then d.(gpu := d.gpu[g := d.gpu[s]]) else d
  }

  function DoAll(d: Device, moves: seq<Move>): Device {
    if moves == [] then d else Do(DoAll(d, moves[..|moves| - 1]), moves[|moves| - 1])
  }

  lemma {:induction false} DoAllConcat(d: Device, a: seq<Move>, b: seq<Move>)
    ensures DoAll(d, a + b) == DoAll(DoAll(d, a), b)
  {
    if b == [] {
      assert a + b == a;
    } else {
      DoAllConcat(d, a, b[..|b| - 1]);
      assert (a + b)[..|a + b| - 1] == a + b[..|b| - 1];
    }
  }

  // ----- what a list of transfers does

  function Ins(slots: seq<nat>, pages: seq<nat>): seq<Move>
    requires |slots| == |pages|
  {
    seq(|slots|, k requires 0 <= k < |slots| => In(slots[k], pages[k]))
  }

  function Outs(pages: seq<nat>, slots: seq<nat>): seq<Move>
    requires |slots| == |pages|
  {
    seq(|slots|, k requires 0 <= k < |slots| => Out(pages[k], slots[k]))
  }

  predicate Bounded(s: seq<nat>, n: nat) { forall i :: 0 <= i < |s| ==> s[i] < n }

  lemma {:induction false} InsEffect(d: Device, slots: seq<nat>, pages: seq<nat>)
    requires |slots| == |pages| && Bounded(slots, |d.cpu|) && Bounded(pages, |d.gpu|) && Distinct(pages)
    ensures var r := DoAll(d, Ins(slots, pages));
            && r.cpu == d.cpu && |r.gpu| == |d.gpu|
            && (forall k :: 0 <= k < |pages| ==> r.gpu[pages[k]] == d.cpu[slots[k]])
            && forall g :: 0 <= g < |d.gpu| && g !in pages ==> r.gpu[g] == d.gpu[g]
  {
    var n := |slots|;
    if n > 0 {
      assert Ins(slots, pages)[..n - 1] == Ins(slots[..n - 1], pages[..n - 1]);
      InsEffect(d, slots[..n - 1], pages[..n - 1]);
      assert forall k :: 0 <= k < n - 1 ==> pages[k] == pages[..n - 1][k];
      assert pages[n - 1] !in pages[..n - 1];
    } else {
      assert Ins(slots, pages) == [];
    }
  }

  lemma {:induction false} OutsEffect(d: Device, pages: seq<nat>, slots: seq<nat>)
    requires |slots| == |pages| && Bounded(slots, |d.cpu|) && Bounded(pages, |d.gpu|) && Distinct(slots)
    ensures var r := DoAll(d, Outs(pages, slots));
            && r.gpu == d.gpu && |r.cpu| == |d.cpu|
            && (forall k :: 0 <= k < |pages| ==> r.cpu[slots[k]] == d.gpu[pages[k]])
            && forall c :: 0 <= c < |d.cpu| && c !in slots ==> r.cpu[c] == d.cpu[c]
  {
    var n := |slots|;
    if n > 0 {
      assert Outs(pages, slots)[..n - 1] == Outs(pages[..n - 1], slots[..n - 1]);
      OutsEffect(d, pages[..n - 1], slots[..n - 1]);
      assert forall k :: 0 <= k < n - 1 ==> slots[k] == slots[..n - 1][k];
      assert slots[n - 1] !in slots[..n - 1];
    } else {
      assert Outs(pages, slots) == [];
    }
  }

  // ----- swap-outs may overtake copies

  /** No swap-out reads a page that one of the copies writes. */
  ghost predicate Apart(copies: seq<Move>, outs: seq<Move>) {
    && (forall i :: 0 <= i < |copies| ==> copies[i].Copy?)
    && (forall j :: 0 <= j < |outs| ==> outs[j].Out?)
    && forall i, j :: 0 <= i < |copies| && 0 <= j < |outs| ==> copies[i].page != outs[j].page
  }

  lemma {:induction false} OutPastCopies(d: Device, copies: seq<Move>, out: Move)
    requires Apart(copies, [out])
    ensures Do(DoAll(d, copies), out) == DoAll(Do(d, out), copies)
  {
    if copies != [] {
      var rest, last := copies[..|copies| - 1], copies[|copies| - 1];
      assert Apart(rest, [out]);
      OutPastCopies(d, rest, out);
      assert last.page != [out][0].page;
      assert Do(Do(DoAll(d, rest), last), out) == Do(Do(DoAll(d, rest), out), last);
    }
  }

  lemma {:induction false} OutsPastCopies(d: Device, copies: seq<Move>, outs: seq<Move>)
    requires Apart(copies, outs)
    ensures DoAll(DoAll(d, copies), outs) == DoAll(DoAll(d, outs), copies)
  {
    if outs != [] {
      var rest, last := outs[..|outs| - 1], outs[|outs| - 1];
      OutsPastCopies(d, copies, rest);
      OutPastCopies(DoAll(d, rest), copies, last);
    }
  }

  /** The executor's three phases have the effect of the planning order, so far, when further pages
      are swapped out that no planned copy writes. */
  lemma GroupOuts(d: Device, outs: seq<Move>, copies: seq<Move>, more: seq<Move>)
    requires Apart(copies, more)
    ensures DoAll(DoAll(DoAll(d, outs), copies), more) == DoAll(DoAll(d, outs + more), copies)
  {
    OutsPastCopies(DoAll(d, outs), copies, more);
    DoAllConcat(d, outs, more);
  }

  /** Copying before swapping out gives the swapped-out request another request's page. */
  lemma CopyFirstBreaks()
    ensures var d := Device([1, 2], [0]);
            DoAll(d, [Copy(1, 0), Out(0, 0)]) != DoAll(d, [Out(0, 0), Copy(1, 0)])
  {
    var d := Device([1, 2], [0]);
    assert [Copy(1, 0), Out(0, 0)][..1] == [Copy(1, 0)] && [Out(0, 0), Copy(1, 0)][..1] == [Out(0, 0)];
    assert [Copy(1, 0)][..0] == [] && [Out(0, 0)][..0] == [];
    assert DoAll(d, [Copy(1, 0)]).gpu == [2, 2];
    assert DoAll(d, [Copy(1, 0), Out(0, 0)]).cpu == [2];
    assert DoAll(d, [Out(0, 0)]).cpu == [1];
    assert DoAll(d, [Out(0, 0), Copy(1, 0)]).cpu == [1];
  }

  /** Swapping out first overwrites a slot that was not read back yet. */
  lemma OutFirstBreaks()
    ensures var d := Device([1, 2], [3]);
            DoAll(d, [Out(0, 0), In(0, 1)]) != DoAll(d, [In(0, 1), Out(0, 0)])
  {
    var d := Device([1, 2], [3]);
    assert [Out(0, 0), In(0, 1)][..1] == [Out(0, 0)] && [In(0, 1), Out(0, 0)][..1] == [In(0, 1)];
    assert [Out(0, 0)][..0] == [] && [In(0, 1)][..0] == [];
    assert DoAll(d, [Out(0, 0)]).cpu == [1];
    assert DoAll(d, [Out(0, 0), In(0, 1)]).gpu == [1, 1];
    assert DoAll(d, [In(0, 1)]).gpu == [1, 3];
    assert DoAll(d, [In(0, 1), Out(0, 0)]).gpu == [1, 3];
  }

  /** Whatever the payloads are, the order of two transfers does not matter. */
  ghost predicate Commute(a: Move, b: Move, gpu: nat, cpu: nat) {
    forall d: Device :: |d.gpu| == gpu && |d.cpu| == cpu ==> Do(Do(d, a), b) == Do(Do(d, b), a)
  }

  /** Payloads that are all different. */
  function Numbered(gpu: nat, cpu: nat): Device { Device(seq(gpu, i => i), seq(cpu, i => gpu + i)) }

  /** A copy may be made before a swap-out exactly if it does not write the page that is swapped out. */
  lemma CopyBeforeOutIff(source: nat, written: nat, page: nat, slot: nat, gpu: nat, cpu: nat)
    requires source < gpu && written < gpu && page < gpu && slot < cpu
    ensures Commute(Copy(source, written), Out(page, slot), gpu, cpu) <==> written != page || source == written
  {
    var copy, out := Copy(source, written), Out(page, slot);
    if written != page || source == written {
      forall d: Device | |d.gpu| == gpu && |d.cpu| == cpu ensures Do(Do(d, copy), out) == Do(Do(d, out), copy) {
        assert source == written ==> d.gpu[written := d.gpu[source]] == d.gpu;
      }
    } else {
      var d := Numbered(gpu, cpu);
      assert Do(Do(d, copy), out).cpu[slot] == source && Do(Do(d, out), copy).cpu[slot] == page;
    }
  }

  lemma OutPastIn(d: Device, page: nat, slot: nat, from: nat, to: nat)
    requires slot != from && page != to
    ensures Do(Do(d, Out(page, slot)), In(from, to)) == Do(Do(d, In(from, to)), Out(page, slot))
  {
  }

  /** A swap-out may be made before a swap-in exactly if they share neither slot nor page. */
  lemma OutBeforeInIff(page: nat, slot: nat, from: nat, to: nat, gpu: nat, cpu: nat)
    requires page < gpu && slot < cpu && from < cpu && to < gpu
    ensures Commute(Out(page, slot), In(from, to), gpu, cpu) <==> slot != from && page != to
  {
    var out, into, d := Out(page, slot), In(from, to), Numbered(gpu, cpu);
    if slot != from && page != to {
      forall e: Device | |e.gpu| == gpu && |e.cpu| == cpu ensures Do(Do(e, out), into) == Do(Do(e, into), out) {
        OutPastIn(e, page, slot, from, to);
      }
    } else if slot == from {
      assert Do(Do(d, out), into).gpu[to] == page;
      assert Do(Do(d, into), out).gpu[to] == gpu + from;
    } else {
      assert Do(Do(d, out), into).cpu[slot] == page;
      assert Do(Do(d, into), out).cpu[slot] == gpu + from;
    }
  }

  // ----- planning

  /** Where the pages of the requests are, which pages and slots can be given out, and the transfers
      planned so far. */
  datatype Plan = Plan(
    tables: map<nat, seq<nat>>,
    swapped: map<nat, seq<nat>>,
    spare: set<nat>,
    slots: set<nat>,
    ins: seq<Move>,
    outs: seq<Move>,
    copies: seq<Move>)

  /** Executing the planned transfers in the executor's order. */
  function Executed(d: Device, p: Plan): Device { DoAll(DoAll(DoAll(d, p.ins), p.outs), p.copies) }

  /** Pages in tables exist and are not spare. */
  ghost predicate PagesOk(p: Plan, n: nat) {
    && (forall id :: id in p.tables ==> Bounded(p.tables[id], n) && NoneIn(p.tables[id], p.spare))
    && forall g :: g in p.spare ==> g < n
  }

  /** Likewise for swap slots, and no two requests share one. */
  ghost predicate SlotsOk(p: Plan, n: nat) {
    && (forall id :: id in p.swapped ==> Bounded(p.swapped[id], n) && NoneIn(p.swapped[id], p.slots))
    && (forall i, j :: i in p.swapped && j in p.swapped && i != j ==> Disjoint(p.swapped[i], p.swapped[j]))
    && forall c :: c in p.slots ==> c < n
  }

  predicate NoneIn(s: seq<nat>, free: set<nat>) { forall k :: 0 <= k < |s| ==> s[k] !in free }

  predicate AllIn(s: seq<nat>, free: set<nat>) { forall k :: 0 <= k < |s| ==> s[k] in free }

  predicate Disjoint(s: seq<nat>, t: seq<nat>) { forall k :: 0 <= k < |s| ==> s[k] !in t }

  /** Pages that planned copies write belong to scheduled requests alone. */
  ghost predicate CopiesApart(p: Plan, scheduled: set<nat>) {
    && (forall i :: 0 <= i < |p.copies| ==> p.copies[i].Copy? && p.copies[i].page !in p.spare)
    && forall i, id :: 0 <= i < |p.copies| && id in p.tables && id !in scheduled ==> p.copies[i].page !in p.tables[id]
  }

  /** The payload starts with these pages. */
  ghost predicate Payload(memory: seq<Page>, table: seq<nat>, pages: seq<Page>) {
    |pages| <= |table| && forall k :: 0 <= k < |pages| ==> table[k] < |memory| && memory[table[k]] == pages[k]
  }

  /** Every request that still has pages holds the payload it had at the beginning. */
  ghost predicate AllHold(p: Plan, d: Device, contents: map<nat, seq<Page>>) {
    && (forall id :: id in p.tables && id in contents ==> Payload(d.gpu, p.tables[id], contents[id]))
    && forall id :: id in p.swapped && id in contents ==> Payload(d.cpu, p.swapped[id], contents[id])
  }

  ghost predicate PlanOn(d: Device, p: Plan, scheduled: set<nat>, contents: map<nat, seq<Page>>) {
    PagesOk(p, |d.gpu|) && SlotsOk(p, |d.cpu|) && CopiesApart(p, scheduled) && AllHold(p, d, contents)
  }

  /** The invariant of planning: executing the plan in the executor's order leaves every request
      that still has pages with its own payload. */
  ghost predicate PlanOk(d0: Device, p: Plan, scheduled: set<nat>, contents: map<nat, seq<Page>>) {
    PlanOn(Executed(d0, p), p, scheduled, contents)
  }

  // ----- swapping in

  /** A swapped-out request gets pages. */
  function SwapIn(p: Plan, id: nat, pages: seq<nat>): Plan
    requires id in p.swapped && |pages| == |p.swapped[id]|
  {
    p.(tables := p.tables[id := pages], swapped := p.swapped - {id},
       spare := p.spare - (set g | g in pages), slots := p.slots + (set c | c in p.swapped[id]),
       ins := p.ins + Ins(p.swapped[id], pages))
  }

  lemma SwapInKeeps(d: Device, r: Device, p: Plan, id: nat, pages: seq<nat>, contents: map<nat, seq<Page>>)
    requires PlanOn(d, p, {}, contents) && p.copies == []
    requires id in p.swapped && |pages| == |p.swapped[id]| && AllIn(pages, p.spare)
    requires r.cpu == d.cpu && |r.gpu| == |d.gpu| && forall k :: 0 <= k < |pages| ==>
             r.gpu[pages[k]] == d.cpu[p.swapped[id][k]]
    requires forall g :: 0 <= g < |d.gpu| && g !in pages ==> r.gpu[g] == d.gpu[g]
    ensures PlanOn(r, SwapIn(p, id, pages), {}, contents)
  {
    var t := SwapIn(p, id, pages);
    forall j | j in t.tables && j in contents ensures Payload(r.gpu, t.tables[j], contents[j]) {
      if j == id {
        assert Payload(d.cpu, p.swapped[id], contents[id]);
      } else {
        assert Payload(d.gpu, p.tables[j], contents[j]);
        assert NoneIn(p.tables[j], p.spare);
      }
    }
    forall j | j in t.swapped ensures Bounded(t.swapped[j], |r.cpu|) && NoneIn(t.swapped[j], t.slots) {
      assert Disjoint(p.swapped[j], p.swapped[id]);
    }
  }

  lemma SwapInOk(d0: Device, p: Plan, id: nat, pages: seq<nat>, contents: map<nat, seq<Page>>)
    requires PlanOk(d0, p, {}, contents) && p.outs == p.copies == []
    requires id in p.swapped && |pages| == |p.swapped[id]| && Distinct(pages) && AllIn(pages, p.spare)
    ensures PlanOk(d0, SwapIn(p, id, pages), {}, contents)
  {
    DoAllConcat(d0, p.ins, Ins(p.swapped[id], pages));
    InsEffect(Executed(d0, p), p.swapped[id], pages);
    SwapInKeeps(Executed(d0, p), Executed(d0, SwapIn(p, id, pages)), p, id, pages, contents);
  }

  // ----- swapping out

  /** A request that is not scheduled gives up its pages; those that no other request holds become
      spare, unless a retained prefix keeps them. */
  function SwapOut(p: Plan, id: nat, slots: seq<nat>, released: set<nat>): Plan
    requires id in p.tables && |slots| == |p.tables[id]|
  {
    p.(tables := p.tables - {id}, swapped := p.swapped[id := slots],
       spare := p.spare + released, slots := p.slots - (set c | c in slots),
       outs := p.outs + Outs(p.tables[id], slots))
  }

  /** Pages that only request id holds. */
  ghost predicate Releasable(p: Plan, id: nat, released: set<nat>)
    requires id in p.tables
  {
    && (forall g :: g in released ==> g in p.tables[id])
    && forall j :: j in p.tables && j != id ==> NoneIn(p.tables[j], released)
  }

  lemma SwapOutKeeps(d: Device, r: Device, p: Plan, id: nat, slots: seq<nat>, released: set<nat>, scheduled: set<nat>,
                     contents: map<nat, seq<Page>>)
    requires PlanOn(d, p, scheduled, contents) && id !in scheduled
    requires id in p.tables && |slots| == |p.tables[id]| && AllIn(slots, p.slots) && Releasable(p, id, released)
    requires id in contents ==> |contents[id]| <= |slots|
    requires r.gpu == d.gpu && |r.cpu| == |d.cpu| && forall k :: 0 <= k < |slots| ==>
             r.cpu[slots[k]] == d.gpu[p.tables[id][k]]
    requires forall c :: 0 <= c < |d.cpu| && c !in slots ==> r.cpu[c] == d.cpu[c]
    ensures PlanOn(r, SwapOut(p, id, slots, released), scheduled, contents)
  {
    var t := SwapOut(p, id, slots, released);
    forall j | j in t.swapped && j in contents ensures Payload(r.cpu, t.swapped[j], contents[j]) {
      if j == id {
        assert Payload(d.gpu, p.tables[id], contents[id]);
      } else {
        assert Payload(d.cpu, p.swapped[j], contents[j]);
        assert NoneIn(p.swapped[j], p.slots);
      }
    }
    forall i, j | i in t.swapped && j in t.swapped && i != j ensures Disjoint(t.swapped[i], t.swapped[j]) {
      assert i != id ==> NoneIn(p.swapped[i], p.slots);
      assert j != id ==> NoneIn(p.swapped[j], p.slots);
    }
  }

  lemma SwapOutOk(d0: Device, p: Plan, id: nat, slots: seq<nat>, released: set<nat>, scheduled: set<nat>,
                  contents: map<nat, seq<Page>>)
    requires PlanOk(d0, p, scheduled, contents) && id !in scheduled
    requires id in p.tables && |slots| == |p.tables[id]| && Distinct(slots) && AllIn(slots, p.slots)
    requires Releasable(p, id, released)
    ensures PlanOk(d0, SwapOut(p, id, slots, released), scheduled, contents)
  {
    var d, more := Executed(d0, p), Outs(p.tables[id], slots);
    assert Apart(p.copies, more);
    GroupOuts(DoAll(d0, p.ins), p.outs, p.copies, more);
    OutsEffect(d, p.tables[id], slots);
    SwapOutKeeps(d, Executed(d0, SwapOut(p, id, slots, released)), p, id, slots, released, scheduled, contents);
  }

  /** Recompute preemption: the request loses its pages and its payload. */
  function Drop(p: Plan, id: nat, released: set<nat>): Plan {
    p.(tables := p.tables - {id}, spare := p.spare + released)
  }

  lemma DropOk(d0: Device, p: Plan, id: nat, released: set<nat>, scheduled: set<nat>, contents: map<nat, seq<Page>>)
    requires PlanOk(d0, p, scheduled, contents) && id !in scheduled && id in p.tables && Releasable(p, id, released)
    ensures PlanOk(d0, Drop(p, id, released), scheduled, contents)
  {
  }

  // ----- growing a request

  /** Copy on write of the last page, which leaves the old page to its other holders. */
  function CopyLast(p: Plan, id: nat, page: nat): Plan
    requires id in p.tables && p.tables[id] != []
  {
    var k := |p.tables[id]| - 1;
    var table: seq<nat> := p.tables[id][k := page];
    p.(tables := p.tables[id := table], spare := p.spare - {page},
       copies := p.copies + [Copy(p.tables[id][k], page)])
  }

  lemma CopyLastKeeps(d: Device, r: Device, p: Plan, id: nat, page: nat, scheduled: set<nat>,
                      contents: map<nat, seq<Page>>)
    requires PlanOn(d, p, scheduled, contents) && id in p.tables && p.tables[id] != [] && page in p.spare
    requires r == Do(d, Copy(p.tables[id][|p.tables[id]| - 1], page))
    ensures PlanOn(r, CopyLast(p, id, page), scheduled + {id}, contents)
  {
    var t := CopyLast(p, id, page);
    forall j | j in t.tables && j in contents ensures Payload(r.gpu, t.tables[j], contents[j]) {
      assert Payload(d.gpu, p.tables[j], contents[j]);
      assert NoneIn(p.tables[j], p.spare);
    }
  }

  lemma CopyLastOk(d0: Device, p: Plan, id: nat, page: nat, scheduled: set<nat>, contents: map<nat, seq<Page>>)
    requires PlanOk(d0, p, scheduled, contents) && id in p.tables && p.tables[id] != [] && page in p.spare
    ensures PlanOk(d0, CopyLast(p, id, page), scheduled + {id}, contents)
  {
    var d := Executed(d0, p);
    var move := Copy(p.tables[id][|p.tables[id]| - 1], page);
    assert (p.copies + [move])[..|p.copies|] == p.copies;
    assert Executed(d0, CopyLast(p, id, page)) == Do(d, move);
    CopyLastKeeps(d, Do(d, move), p, id, page, scheduled, contents);
  }

  /** A further page; the model step will write it. */
  function Append(p: Plan, id: nat, page: nat): Plan
    requires id in p.tables
  {
    var table: seq<nat> := p.tables[id] + [page];
    p.(tables := p.tables[id := table], spare := p.spare - {page})
  }

  lemma AppendOk(d0: Device, p: Plan, id: nat, page: nat, scheduled: set<nat>, contents: map<nat, seq<Page>>)
    requires PlanOk(d0, p, scheduled, contents) && id in p.tables && page in p.spare
    ensures PlanOk(d0, Append(p, id, page), scheduled + {id}, contents)
  {
    forall j | j in p.tables && j in contents
      ensures Payload(Executed(d0, p).gpu, Append(p, id, page).tables[j], contents[j])
    {
      assert Payload(Executed(d0, p).gpu, p.tables[j], contents[j]);
    }
  }

  // ----- the scheduler

  predicate InTables(p: Plan, queue: seq<nat>) { forall i :: 0 <= i < |queue| ==> queue[i] in p.tables }

  /** A request outside `gone` has page g. */
  predicate Kept(p: Plan, gone: set<nat>, g: nat) { exists j :: j in p.tables && j !in gone && g in p.tables[j] }

  /** Its next token needs a page: it starts one, or another request has the last page. */
  predicate Needs(p: Plan, id: nat, crossing: set<nat>)
    requires id in p.tables
  {
    id in crossing || (p.tables[id] != [] && Kept(p, {id}, p.tables[id][|p.tables[id]| - 1]))
  }

  /** The queues of the scheduler and the tables agree.  A request is swapped out with at least one page. */
  ghost predicate Queues(p: Plan, decoding: seq<nat>, swappedOut: seq<nat>) {
    && Distinct(decoding) && Distinct(swappedOut) && p.tables.Keys !! p.swapped.Keys
    && (forall i :: 0 <= i < |decoding| ==> decoding[i] in p.tables)
    && forall i :: 0 <= i < |swappedOut| ==> swappedOut[i] in p.swapped && p.swapped[swappedOut[i]] != []
  }

  lemma SwapInQueues(p: Plan, decoding: seq<nat>, swappedOut: seq<nat>, pages: seq<nat>)
    requires Queues(p, decoding, swappedOut) && swappedOut != [] && |pages| == |p.swapped[swappedOut[0]]|
    ensures Queues(SwapIn(p, swappedOut[0], pages), decoding + [swappedOut[0]], swappedOut[1..])
  {
  }

  /** Candidates hold pages and are not scheduled, scheduled requests keep theirs, and every request of
      the step is resident, swapped out or back in the waiting queue. */
  ghost predicate Progress(p: Plan, candidates: seq<nat>, scheduled: set<nat>, waiting: set<nat>, all: set<nat>) {
    && Distinct(candidates)
      && (forall i :: 0 <= i < |candidates| ==> candidates[i] in p.tables && candidates[i] !in scheduled)
    && scheduled <= p.tables.Keys && p.tables.Keys !! p.swapped.Keys
    && p.tables.Keys + p.swapped.Keys + waiting == all
  }

  /** Without its last candidate, who was preempted, the queue is still in order. */
  lemma ShorterQueue(p: Plan, q: Plan, queue: seq<nat>, scheduled: set<nat>, waiting: set<nat>, left: set<nat>,
                     all: set<nat>)
    requires queue != [] && Progress(p, queue, scheduled, waiting, all)
    requires q.tables.Keys == p.tables.Keys - {queue[|queue| - 1]}
    requires q.tables.Keys !! q.swapped.Keys && q.tables.Keys + q.swapped.Keys + left == all
    ensures Progress(q, queue[..|queue| - 1], scheduled, left, all)
  {
  }

  lemma MoreScheduled(d0: Device, p: Plan, id: nat, scheduled: set<nat>, contents: map<nat, seq<Page>>)
    requires PlanOk(d0, p, scheduled, contents)
    ensures PlanOk(d0, p, scheduled + {id}, contents)
  {
  }

  // ----- when nobody can run

  /** The first request of the queue needs a page that it cannot get, not even by preempting all others: none is
      spare, every page of the others is also someone else's, and its own last page is not theirs alone. */
  ghost predicate Stuck(p: Plan, queue: seq<nat>, crossing: set<nat>)
    requires InTables(p, queue)
  {
    && queue != [] && p.spare == {}
    && (forall v, g :: v in Members(queue[1..]) && v in p.tables && g in p.tables[v] ==>
          Kept(p, Members(queue[1..]), g))
    && (queue[0] in crossing ||
        (p.tables[queue[0]] != [] &&
         Kept(p, Members(queue), p.tables[queue[0]][|p.tables[queue[0]]| - 1])))
  }

  /** The first swapped-out request comes back. */
  predicate Returns(p: Plan, decoding: seq<nat>, swappedOut: seq<nat>, running: nat, maxSeqs: nat)
    requires forall i :: 0 <= i < |swappedOut| ==> swappedOut[i] in p.swapped
  {
    swappedOut != [] && |decoding| + running < maxSeqs && |p.swapped[swappedOut[0]]| <= |p.spare|
  }

  /** A decode step can schedule nobody: none is admitted, or the queue is empty or stuck and nobody comes back, or
      a request that comes back to an empty queue takes the last pages and needs one more. */
  ghost predicate NobodyRuns(p: Plan, decoding: seq<nat>, swappedOut: seq<nat>, running: nat, maxSeqs: nat,
                             crossing: set<nat>)
    requires Queues(p, decoding, swappedOut)
  {
    || maxSeqs == 0
    || if Returns(p, decoding, swappedOut, running, maxSeqs) then
         decoding == [] && |p.swapped[swappedOut[0]]| == |p.spare| && swappedOut[0] in crossing
       else decoding == [] || Stuck(p, decoding, crossing)
  }

  /** No other request has a page of this one. */
  ghost predicate Lone(p: Plan, id: nat) {
    id in p.tables && p.tables[id] != [] && forall j :: j in p.tables && j != id ==> Disjoint(p.tables[id], p.tables[j])
  }

  /** Preempting a request that has pages of its own frees them. */
  lemma LoneLast(p: Plan, queue: seq<nat>, crossing: set<nat>)
    requires InTables(p, queue)
    requires |queue| > 1 && Distinct(queue) && Lone(p, queue[|queue| - 1])
    ensures !Stuck(p, queue, crossing)
  {
    var last := queue[|queue| - 1];
    assert queue[1..][|queue| - 2] == last;
    var g := p.tables[last][0];
    assert last in Members(queue[1..]) && g in p.tables[last];
    forall j | j in p.tables && j !in Members(queue[1..]) ensures g !in p.tables[j] {
      assert Disjoint(p.tables[last], p.tables[j]);
    }
    assert !Kept(p, Members(queue[1..]), g);
  }

  lemma LoneOnly(p: Plan, id: nat, crossing: set<nat>)
    requires Lone(p, id)
    ensures Stuck(p, [id], crossing) <==> p.spare == {} && id in crossing
  {
    assert [id][1..] == [] && Members([id]) == {id};
    var last := p.tables[id][|p.tables[id]| - 1];
    forall j | j in p.tables && j !in Members([id]) ensures last !in p.tables[j] {
      assert Disjoint(p.tables[id], p.tables[j]);
    }
    assert !Kept(p, Members([id]), last);
  }

  /** A request that comes back gets pages that nobody has, and so do those that came back before it. */
  lemma SwapInLone(p: Plan, id: nat, pages: seq<nat>, n: nat, other: nat)
    requires PagesOk(p, n) && id in p.swapped && id !in p.tables && |pages| == |p.swapped[id]| && p.swapped[id] != []
    requires AllIn(pages, p.spare)
    ensures Lone(SwapIn(p, id, pages), id)
    ensures Lone(p, other) ==> Lone(SwapIn(p, id, pages), other)
  {
    var t := SwapIn(p, id, pages);
    forall j | j in p.tables ensures Disjoint(pages, p.tables[j]) && Disjoint(p.tables[j], pages) {
      assert NoneIn(p.tables[j], p.spare);
    }
  }

  lemma SpareLeft(p: Plan, id: nat, pages: seq<nat>)
    requires id in p.swapped && |pages| == |p.swapped[id]| && Distinct(pages) && AllIn(pages, p.spare)
    ensures |SwapIn(p, id, pages).spare| == |p.spare| - |pages|
  {
    DistinctSize(pages);
    var taken := set g | g in pages;
    assert taken == Members(pages) && taken <= p.spare;
  }

  lemma {:induction false} DistinctSize(s: seq<nat>)
    requires Distinct(s)
    ensures |Members(s)| == |s|
  {
    if s != [] {
      var rest, last := s[..|s| - 1], s[|s| - 1];
      DistinctSize(rest);
      assert Members(s) == Members(rest) + {last};
      assert last !in Members(rest);
    }
  }

  /** Preemption from the back of the queue, candidates `gone` so far: their pages are spare, unless someone else
      has them; if the queue was stuck, nothing became spare. */
  ghost predicate Emptied(p0: Plan, p: Plan, queue: seq<nat>, gone: set<nat>, crossing: set<nat>)
    requires InTables(p0, queue)
  {
    && p.tables == p0.tables - gone && p0.spare <= p.spare
    && (forall v, g :: v in gone && v in p0.tables && g in p0.tables[v] ==> g in p.spare || Kept(p0, gone, g))
    && (Stuck(p0, queue, crossing) ==> p.spare == {})
  }

  lemma EmptyOne(p0: Plan, p: Plan, q: Plan, queue: seq<nat>, gone: set<nat>, victim: nat, crossing: set<nat>)
    requires InTables(p0, queue)
    requires Emptied(p0, p, queue, gone, crossing) && victim in p.tables
    requires queue != [] && gone + {victim} <= Members(queue[1..])
    requires q.tables == p.tables - {victim}
    requires q.spare == p.spare + (set g | g in p.tables[victim] && !Kept(p, {victim}, g))
    ensures Emptied(p0, q, queue, gone + {victim}, crossing)
  {
    var more := gone + {victim};
    assert q.tables == p0.tables - more;
    forall v, g | v in more && v in p0.tables && g in p0.tables[v] ensures g in q.spare || Kept(p0, more, g) {
      if g !in q.spare {
        if v == victim {
          var j :| j in p.tables && j !in {victim} && g in p.tables[j];
          assert j in p0.tables && j !in more && g in p0.tables[j];
        } else {
          var j :| j in p0.tables && j !in gone && g in p0.tables[j];
          if j == victim {
            assert g in p.tables[victim];
            var i :| i in p.tables && i !in {victim} && g in p.tables[i];
            assert i in p0.tables && i !in more && g in p0.tables[i];
          }
        }
      }
    }
    if Stuck(p0, queue, crossing) {
      forall g | g in p.tables[victim] ensures Kept(p, {victim}, g) {
        assert victim in Members(queue[1..]) && victim in p0.tables && g in p0.tables[victim];
        assert Kept(p0, Members(queue[1..]), g);
        var j :| j in p0.tables && j !in Members(queue[1..]) && g in p0.tables[j];
        assert j in p.tables && j !in {victim};
      }
    }
  }

  /** With all others gone, the first request is out of luck exactly if the queue was stuck. */
  lemma StuckAtEnd(p0: Plan, p: Plan, queue: seq<nat>, gone: set<nat>, crossing: set<nat>)
    requires InTables(p0, queue)
    requires queue != [] && Distinct(queue) && Emptied(p0, p, queue, gone, crossing) && queue[0] in p.tables
    requires gone <= Members(queue[1..])
    ensures Needs(p, queue[0], crossing) && p.spare == {} && gone == Members(queue[1..]) ==> Stuck(p0, queue, crossing)
    ensures Stuck(p0, queue, crossing) ==> Needs(p, queue[0], crossing) && p.spare == {}
  {
    var id := queue[0];
    assert queue == [id] + queue[1..];
    assert Members(queue) == {id} + Members(queue[1..]);
    if Stuck(p0, queue, crossing) && id !in crossing {
      var last := p0.tables[id][|p0.tables[id]| - 1];
      var j :| j in p0.tables && j !in Members(queue) && last in p0.tables[j];
      assert j in p.tables && j !in {id};
    }
    if Needs(p, id, crossing) && p.spare == {} && gone == Members(queue[1..]) {
      if id !in crossing {
        var last := p.tables[id][|p.tables[id]| - 1];
        var j :| j in p.tables && j !in {id} && last in p.tables[j];
        assert j in p0.tables && j !in Members(queue);
      }
      forall v, g | v in gone && v in p0.tables && g in p0.tables[v] ensures Kept(p0, gone, g) {
        assert g !in p.spare;
      }
    }
  }

  lemma NobodyGone(p: Plan, queue: seq<nat>, crossing: set<nat>)
    requires InTables(p, queue)
    ensures Emptied(p, p, queue, {}, crossing)
  {
  }

  /** The last of the first n + 1 candidates is gone now, too. */
  lemma OneMoreGone(candidates: seq<nat>, n: nat, gone: set<nat>, victim: nat)
    requires n < |candidates| && gone == Members(candidates[n + 1..]) && victim == candidates[n]
    ensures Members(candidates[n..]) == gone + {victim} <= Members(candidates)
  {
    assert candidates[n..] == [victim] + candidates[n + 1..];
    assert forall x :: x in candidates[n..] ==> x in candidates;
  }

  // ----- who came back

  /** From plan p0 and queue q0, requests of the list s0 came back. */
  ghost predicate CameBack(p0: Plan, q0: seq<nat>, s0: seq<nat>, p: Plan, q: seq<nat>) {
    && |q| >= |q0| && (|q| == |q0| ==> p == p0 && q == q0)
    && (|q| > |q0| ==> s0 != [] && s0[0] in p0.swapped && Lone(p, q[|q| - 1]) && q[|q0|] == s0[0])
    && (|q| == |q0| + 1 ==> |p.spare| + |p0.swapped[s0[0]]| == |p0.spare|)
    && (|q| > |q0| + 1 ==> |p0.swapped[s0[0]]| < |p0.spare|)
  }

  lemma QueueGrew(p0: Plan, q0: seq<nat>, s0: seq<nat>, p: Plan, q: seq<nat>)
    requires CameBack(p0, q0, s0, p, q)
    ensures |q| >= |q0|
  {
  }

  lemma OneMoreBack(d0: Device, p0: Plan, q0: seq<nat>, s0: seq<nat>, p: Plan, q: seq<nat>, id: nat, pages: seq<nat>,
                    contents: map<nat, seq<Page>>)
    requires CameBack(p0, q0, s0, p, q) && PlanOk(d0, p, {}, contents) && id in p.swapped && id !in p.tables
    requires |q| - |q0| < |s0| && id == s0[|q| - |q0|]
    requires |pages| == |p.swapped[id]| && p.swapped[id] != [] && Distinct(pages) && AllIn(pages, p.spare)
    ensures CameBack(p0, q0, s0, SwapIn(p, id, pages), q + [id])
  {
    SwapInLone(p, id, pages, |Executed(d0, p).gpu|, id);
    SpareLeft(p, id, pages);
  }

  lemma AllBack(p0: Plan, q0: seq<nat>, s0: seq<nat>, p: Plan, q: seq<nat>, s: seq<nat>, running: nat, maxSeqs: nat,
                crossing: set<nat>)
    requires Queues(p0, q0, s0) && CameBack(p0, q0, s0, p, q) && Queues(p, q, s) && q + s == q0 + s0
    requires |q| > |q0| ==> Returns(p0, q0, s0, running, maxSeqs)
    requires s == [] || |q| + running >= maxSeqs || |p.swapped[s[0]]| > |p.spare|
    requires maxSeqs > 0
    ensures q == [] || Stuck(p, q, crossing) <==> NobodyRuns(p0, q0, s0, running, maxSeqs, crossing)
  {
    if |q| == |q0| {
      assert s == (q + s)[|q|..] == (q0 + s0)[|q0|..] == s0;
    } else if |q| == 1 {
      assert q == [s0[0]];
      LoneOnly(p, s0[0], crossing);
    } else {
      LoneLast(p, q, crossing);
    }
  }

  class Scheduler {
    var plan: Plan
    var decoding: seq<nat>
    var swappedOut: seq<nat>
    var waiting: set<nat>
    const prefilling: nat  // running requests that are still in their prompts
    const crossing: set<nat>  // requests whose next row starts a page

    constructor (plan: Plan, decoding: seq<nat>, swappedOut: seq<nat>, prefilling: nat, crossing: set<nat>)
      ensures this.plan == plan && this.decoding == decoding && this.swappedOut == swappedOut && waiting == {}
      ensures this.prefilling == prefilling && this.crossing == crossing
    {
      this.plan, this.decoding, this.swappedOut, waiting := plan, decoding, swappedOut, {};
      this.prefilling, this.crossing := prefilling, crossing;
    }

    ghost predicate Nobody(maxSeqs: nat)
      requires Queues(plan, decoding, swappedOut)
      reads this
    {
      NobodyRuns(plan, decoding, swappedOut, prefilling, maxSeqs, crossing)
    }

    /** Any n different members of a set. */
    static method Pick(free: set<nat>, n: nat) returns (picked: seq<nat>)
      requires n <= |free|
      ensures |picked| == n && Distinct(picked) && AllIn(picked, free)
    {
      picked := [];
      ghost var left := free;
      while |picked| < n
        invariant |picked| <= n && Distinct(picked) && AllIn(picked, free)
        invariant left == (set g | g in free && g !in picked) && |left| == |free| - |picked|
      {
        assert left != {};
        var g :| g in free && g !in picked;
        left := left - {g};
        picked := picked + [g];
      }
    }

    /** Bring back swapped-out requests, in their order, while there is room. */
    method PlanSwapIns(maxSeqs: nat, ghost d0: Device, ghost contents: map<nat, seq<Page>>)
      requires Queues(plan, decoding, swappedOut) && PlanOk(d0, plan, {}, contents) && plan.outs == plan.copies == []
      modifies this`plan, this`decoding, this`swappedOut
      ensures Queues(plan, decoding, swappedOut) && PlanOk(d0, plan, {}, contents) && plan.outs == plan.copies == []
      ensures plan.tables.Keys + plan.swapped.Keys == old(plan).tables.Keys + old(plan).swapped.Keys
      ensures old(decoding) <= decoding && decoding + swappedOut == old(decoding + swappedOut)
      ensures |decoding| == |old(decoding)| || |decoding| + prefilling <= maxSeqs
      ensures swappedOut == [] || |decoding| + prefilling >= maxSeqs || |plan.swapped[swappedOut[0]]| > |plan.spare|
      ensures maxSeqs > 0 ==> (decoding == [] || Stuck(plan, decoding, crossing) <==> old(Nobody(maxSeqs)))
    {
      hide PlanOk;
      ghost var p0, q0, s0 := plan, decoding, swappedOut;
      while swappedOut != [] && |decoding| + prefilling < maxSeqs && |plan.swapped[swappedOut[0]]| <= |plan.spare|
        invariant Queues(plan, decoding, swappedOut) && PlanOk(d0, plan, {}, contents) && plan.outs == plan.copies == []
        invariant plan.tables.Keys + plan.swapped.Keys == old(plan).tables.Keys + old(plan).swapped.Keys
        invariant q0 <= decoding && decoding + swappedOut == q0 + s0
        invariant |decoding| == |q0| || |decoding| + prefilling <= maxSeqs
        invariant CameBack(p0, q0, s0, plan, decoding)
        invariant |decoding| > |q0| ==> Returns(p0, q0, s0, prefilling, maxSeqs)
        decreases |swappedOut|
      {
        if |decoding| == |q0| { assert swappedOut[0] == (q0 + s0)[|q0|] == s0[0]; }
        SwapInFirst(d0, contents, p0, q0, s0);
      }
      if maxSeqs > 0 { AllBack(p0, q0, s0, plan, decoding, swappedOut, prefilling, maxSeqs, crossing); }
    }

    method SwapInFirst(ghost d0: Device, ghost contents: map<nat, seq<Page>>,
                       ghost p0: Plan, ghost q0: seq<nat>, ghost s0: seq<nat>)
      requires Queues(plan, decoding, swappedOut) && PlanOk(d0, plan, {}, contents) && plan.outs == plan.copies == []
      requires swappedOut != [] && |plan.swapped[swappedOut[0]]| <= |plan.spare|
      requires CameBack(p0, q0, s0, plan, decoding) && decoding + swappedOut == q0 + s0
      modifies this`plan, this`decoding, this`swappedOut
      ensures Queues(plan, decoding, swappedOut) && PlanOk(d0, plan, {}, contents) && plan.outs == plan.copies == []
      ensures plan.tables.Keys + plan.swapped.Keys == old(plan).tables.Keys + old(plan).swapped.Keys
      ensures decoding == old(decoding) + [old(swappedOut)[0]] && swappedOut == old(swappedOut)[1..]
      ensures decoding + swappedOut == q0 + s0 && CameBack(p0, q0, s0, plan, decoding)
    {
      hide PlanOk, CameBack;
      var id := swappedOut[0];
      var pages := Pick(plan.spare, |plan.swapped[id]|);
      assert id == (decoding + swappedOut)[|decoding|] == (q0 + s0)[|decoding|];
      QueueGrew(p0, q0, s0, plan, decoding);
      SwapInQueues(plan, decoding, swappedOut, pages);
      SwapInOk(d0, plan, id, pages, contents);
      OneMoreBack(d0, p0, q0, s0, plan, decoding, id, pages, contents);
      plan := SwapIn(plan, id, pages);
      swappedOut, decoding := swappedOut[1..], decoding + [id];
    }

    /** Swap a request out, or send it back to be computed again if the CPU has no room. */
    method Preempt(id: nat, ghost scheduled: set<nat>, ghost d0: Device, ghost contents: map<nat, seq<Page>>)
      requires PlanOk(d0, plan, scheduled, contents) && id in plan.tables && id !in scheduled
      requires plan.tables.Keys !! plan.swapped.Keys
      modifies this`plan, this`waiting
      ensures PlanOk(d0, plan, scheduled, contents)
      ensures plan.tables == old(plan).tables - {id} && plan.tables.Keys !! plan.swapped.Keys
      ensures plan.spare == old(plan).spare + (set g | g in old(plan).tables[id] && !Kept(old(plan), {id}, g))
      ensures plan.tables.Keys + plan.swapped.Keys + waiting == old(plan.tables.Keys + plan.swapped.Keys + waiting)
    {
      hide PlanOk;
      var released := set g | g in plan.tables[id] && !Kept(plan, {id}, g);
      if plan.tables[id] != [] && |plan.tables[id]| <= |plan.slots| {
        var slots := Pick(plan.slots, |plan.tables[id]|);
        SwapOutOk(d0, plan, id, slots, released, scheduled, contents);
        plan := SwapOut(plan, id, slots, released);
      } else {
        DropOk(d0, plan, id, released, scheduled, contents);
        plan := Drop(plan, id, released);
        waiting := waiting + {id};
      }
    }

    /** Reserve what the next token of a request needs.  A last page that its own retained prefix holds may be
        copied, too, if there is a page for that. */
    method GrowOne(id: nat, ghost scheduled: set<nat>, ghost d0: Device, ghost contents: map<nat, seq<Page>>)
      requires PlanOk(d0, plan, scheduled, contents) && id in plan.tables
      requires Needs(plan, id, crossing) ==> plan.spare != {}
      modifies this`plan
      ensures PlanOk(d0, plan, scheduled + {id}, contents)
      ensures plan.tables.Keys == old(plan).tables.Keys && plan.swapped == old(plan).swapped
    {
      hide PlanOk;
      var copy: bool := *;
      if id in crossing {
        var page :| page in plan.spare;
        AppendOk(d0, plan, id, page, scheduled, contents);
        plan := Append(plan, id, page);
      } else if Needs(plan, id, crossing) || (copy && plan.tables[id] != [] && plan.spare != {}) {
        var page :| page in plan.spare;
        CopyLastOk(d0, plan, id, page, scheduled, contents);
        plan := CopyLast(plan, id, page);
      } else {
        MoreScheduled(d0, plan, id, scheduled, contents);
      }
    }

    /** One decoding request: preempt others from the back of the queue until it can grow, or give it
        up itself, exactly if the queue was stuck; then copy its last page or append one as it needs. */
    method PlanOne(id: nat, candidates: seq<nat>, ghost scheduled: set<nat>, ghost all: set<nat>,
                   ghost d0: Device, ghost contents: map<nat, seq<Page>>)
      returns (rest: seq<nat>, ok: bool)
      requires PlanOk(d0, plan, scheduled, contents) && Progress(plan, [id] + candidates, scheduled, waiting, all)
      modifies this`plan, this`waiting
      ensures rest <= candidates && (!ok ==> rest == [])
      ensures InTables(old(plan), [id] + candidates) && (ok <==> !Stuck(old(plan), [id] + candidates, crossing))
      ensures PlanOk(d0, plan, if ok then scheduled + {id} else scheduled, contents)
      ensures Progress(plan, rest, if ok then scheduled + {id} else scheduled, waiting, all)
    {
      hide PlanOk, Stuck, Emptied, Needs;
      rest := candidates;
      ghost var p0, queue, gone := plan, [id] + candidates, {};
      assert queue[0] == id;
      NobodyGone(p0, queue, crossing);
      while rest != [] && Needs(plan, id, crossing) && plan.spare == {}
        invariant rest <= candidates && PlanOk(d0, plan, scheduled, contents) && id in plan.tables
        invariant Progress(plan, [id] + rest, scheduled, waiting, all)
        invariant InTables(p0, queue) && Emptied(p0, plan, queue, gone, crossing)
        invariant gone == Members(candidates[|rest|..])
        decreases |rest|
      {
        var victim := rest[|rest| - 1];
        assert ([id] + rest)[|rest|] == victim && ([id] + rest)[0] == id;
        ghost var was, waited := plan, waiting;
        Preempt(victim, scheduled, d0, contents);
        ShorterQueue(was, plan, [id] + rest, scheduled, waited, waiting, all);
        assert ([id] + rest)[..|rest|] == [id] + rest[..|rest| - 1];
        rest := rest[..|rest| - 1];
        OneMoreGone(candidates, |rest|, gone, victim);
        EmptyOne(p0, was, plan, queue, gone, victim, crossing);
        gone := gone + {victim};
        assert ([id] + rest)[0] == id;
      }
      assert queue[1..] == candidates && queue[0] == id;
      assert gone <= Members(candidates);
      StuckAtEnd(p0, plan, queue, gone, crossing);
      assert ([id] + rest)[0] == id;
      ok := !(Needs(plan, id, crossing) && plan.spare == {});
      if ok {
        GrowOne(id, scheduled, d0, contents);
        assert forall i :: 0 <= i < |rest| ==> rest[i] == ([id] + rest)[i + 1];
      } else {
        assert candidates[0..] == candidates;
        Preempt(id, scheduled, d0, contents);
      }
    }

    /** The plan of a decode step.  No request is lost, and executing the planned transfers phase by
        phase leaves every request that keeps pages with its own payload.  Whether anybody is scheduled is decided
        by the state before the step. */
    method PlanDecode(maxSeqs: nat, ghost d0: Device, ghost contents: map<nat, seq<Page>>) returns (scheduled: seq<nat>)
      requires Queues(plan, decoding, swappedOut) && PlanOk(d0, plan, {}, contents)
      requires plan.ins == plan.outs == plan.copies == []
      modifies this
      ensures PlanOk(d0, plan, Members(scheduled), contents)
      ensures plan.tables.Keys + plan.swapped.Keys + waiting == old(plan.tables.Keys + plan.swapped.Keys + waiting)
      ensures |scheduled| <= maxSeqs && forall i :: 0 <= i < |scheduled| ==> scheduled[i] in plan.tables
      ensures scheduled == [] <==> old(Nobody(maxSeqs))
    {
      hide PlanOk, Stuck;
      ghost var all := plan.tables.Keys + plan.swapped.Keys + waiting;
      PlanSwapIns(maxSeqs, d0, contents);
      var candidates := decoding;
      scheduled := [];
      ghost var planned, queue := plan, decoding;
      assert Members(scheduled) == {};
      while candidates != [] && |scheduled| < maxSeqs
        invariant PlanOk(d0, plan, Members(scheduled), contents) && |scheduled| <= maxSeqs
        invariant Progress(plan, candidates, Members(scheduled), waiting, all) && InTables(planned, queue)
        invariant scheduled == [] ==> (candidates == queue && plan == planned)
                                      || (candidates == [] && queue != [] && Stuck(planned, queue, crossing))
        invariant scheduled != [] ==> queue != [] && !Stuck(planned, queue, crossing)
        decreases |candidates|
      {
        var id := candidates[0];
        assert candidates == [id] + candidates[1..];
        var rest, ok := PlanOne(id, candidates[1..], Members(scheduled), all, d0, contents);
        if ok {
          assert Members(scheduled + [id]) == Members(scheduled) + {id};
          scheduled := scheduled + [id];
        }
        candidates := rest;
      }
      decoding := scheduled + candidates;
    }
  }

  // ----- the executor

  class Runner {
    const gpu: array<Page>
    const cpu: array<Page>

    constructor (gpu: array<Page>, cpu: array<Page>)
      ensures this.gpu == gpu && this.cpu == cpu
    {
      this.gpu, this.cpu := gpu, cpu;
    }

    ghost function Memory(): Device
      reads gpu, cpu
    {
      Device(gpu[..], cpu[..])
    }

    /** Copy whole pages, in the order of the list. */
    method Transfer(moves: seq<Move>)
      requires gpu != cpu
      modifies gpu, cpu
      ensures Memory() == DoAll(old(Memory()), moves)
    {
      var i := 0;
      while i < |moves|
        invariant i <= |moves| && Memory() == DoAll(old(Memory()), moves[..i])
      {
        ghost var was := Memory();
        match moves[i] {
          case In(c, g) => if c < cpu.Length && g < gpu.Length { gpu[g] := cpu[c]; }
          case Out(g, c) => if c < cpu.Length && g < gpu.Length { cpu[c] := gpu[g]; }
          case Copy(s, g) => if s < gpu.Length && g < gpu.Length { gpu[g] := gpu[s]; }
        }
        assert Memory() == Do(was, moves[i]);
        assert moves[..i + 1][..i] == moves[..i];
        i := i + 1;
      }
      assert moves[..|moves|] == moves;
    }

    /** The executor: swap-ins, then swap-outs, then copies. */
    method Execute(p: Plan)
      requires gpu != cpu
      modifies gpu, cpu
      ensures Memory() == Executed(old(Memory()), p)
    {
      Transfer(p.ins);
      Transfer(p.outs);
      Transfer(p.copies);
    }

    /** Planning and executing a decode step: whatever was swapped, preempted or copied, every
        request that still has pages or swap slots finds in them what it had before.  A step that can
        schedule nobody raises an exception, and its transfers are not made. */
    method DecodeStep(scheduler: Scheduler, maxSeqs: nat,
                      ghost contents: map<nat, seq<Page>>)
      returns (scheduled: seq<nat>)
      requires gpu != cpu && Queues(scheduler.plan, scheduler.decoding, scheduler.swappedOut)
      requires PlanOn(Memory(), scheduler.plan, {}, contents)
      requires scheduler.plan.ins == scheduler.plan.outs == scheduler.plan.copies == []
      modifies scheduler, gpu, cpu
      ensures scheduled == [] <==> old(scheduler.Nobody(maxSeqs))
      ensures !old(scheduler.Nobody(maxSeqs)) ==>
                forall id :: id in scheduler.plan.tables && id in contents ==>
                  Payload(gpu[..], scheduler.plan.tables[id], contents[id])
      ensures !old(scheduler.Nobody(maxSeqs)) ==>
                forall id :: id in scheduler.plan.swapped && id in contents ==>
                  Payload(cpu[..], scheduler.plan.swapped[id], contents[id])
      ensures old(scheduler.Nobody(maxSeqs)) ==> Memory() == old(Memory())
      ensures scheduler.plan.tables.Keys + scheduler.plan.swapped.Keys + scheduler.waiting
           == old(scheduler.plan.tables.Keys + scheduler.plan.swapped.Keys + scheduler.waiting)
    {
      hide NobodyRuns;
      ghost var d0 := Memory();
      scheduled := scheduler.PlanDecode(maxSeqs, d0, contents);
      if scheduled != [] {
        Execute(scheduler.plan);
      }
    }
  }

  /** One request with the only page, which needs another one: the step swaps it out, raises, and does not make the
      transfer.  Its slot does not hold what its page held. */
  lemma TransfersAreLost()
    ensures var d, p := Device([7], [0]), Plan(map[5 := [0]], map[], {}, {0}, [], [], []);
            var t := SwapOut(p, 5, [0], {0});
            && PlanOn(d, p, {}, map[5 := [7]]) && Queues(p, [5], []) && NobodyRuns(p, [5], [], 0, 8, {5})
            && 5 in t.swapped && !Payload(d.cpu, t.swapped[5], [7])
  {
    var p := Plan(map[5 := [0]], map[], {}, {0}, [], [], []);
    var queue: seq<nat> := [5];
    assert queue[1..] == [] && Queues(p, queue, []);
    assert !Returns(p, queue, [], 0, 8) && Stuck(p, queue, {5});
    assert PlanOn(Device([7], [0]), p, {}, map[5 := [7]]);
    var t := SwapOut(p, 5, [0], {0});
    assert t.swapped[5] == [0] && Device([7], [0]).cpu[t.swapped[5][0]] != 7;
  }
}
