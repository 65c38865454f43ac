/** The phase barrier between a parent process and its replicas
    (benchmarks/bench_vision_replicas.py with the child loop of bench_vision_parallel.py):
    replicas, one reader thread per replica, a shared FIFO queue and the parent interleave freely.
    The source starts two replicas and runs two phases; any positive numbers are allowed here. */
module ReplicaBarrier {

  datatype Event = Ready(replica: nat, phase: nat) | Eof(replica: nat) | ReaderError(replica: nat)

  /** One replica with its two pipes.  The counters say how many phases it announced, started and
      finished, and how many announcements the parent collected and answered with START. */
  datatype Replica = Replica(
    announced: nat, started: nat, finished: nat,
    collected: nat, released: nat,
    stdout: seq<nat>, stdin: nat,
    alive: bool, exitedOk: bool, readerOpen: bool)

  datatype Failure = TimedOut | ReplicaStopped | UnexpectedReadiness | BrokenPipe | BadExit

  datatype Parent =
    | Collecting(phase: nat, ready: set<nat>)
    | Releasing(phase: nat, next: nat)
    | Waiting(next: nat)
    | Raised(failure: Failure)
    | Done

  datatype State = State(replicas: seq<Replica>, queue: seq<Event>, parent: Parent)

  datatype Step =
    | Announce(i: nat)     // print READY for the next phase
    | Start(i: nat)        // read START and begin the phase
    | Finish(i: nat)       // the phase is done
    | Exit(i: nat)         // all phases done, exit code 0
    | Die(i: nat)          // crash or termination at any moment
    | Read(i: nat)         // the reader thread forwards a line, or end of file
    | ReaderFails(i: nat)  // the reader thread reports an exception and stops
    | Get                  // the parent takes one event from the queue
    | Write                // the parent writes START to the next replica
    | Wait                 // the parent sees the exit of the next replica
    | Timeout              // the deadline passes while the parent waits

  predicate InRange(s: State, i: nat) { i < |s.replicas| }

  predicate Enabled(s: State, phases: nat, step: Step) {
    match step
    case Announce(i) => InRange(s, i) && var r := s.replicas[i];
                        r.alive && r.announced == r.finished < phases
    case Start(i) => InRange(s, i) && var r := s.replicas[i];
                     r.alive && r.started < r.announced && r.stdin > 0
    case Finish(i) => InRange(s, i) && var r := s.replicas[i]; r.alive && r.finished < r.started
    case Exit(i) => InRange(s, i) && var r := s.replicas[i]; r.alive && r.finished == phases
    case Die(i) => InRange(s, i) && s.replicas[i].alive
    case Read(i) => InRange(s, i) && var r := s.replicas[i]; r.readerOpen && (r.stdout != [] || !r.alive)
    case ReaderFails(i) => InRange(s, i) && s.replicas[i].readerOpen
    case Get => s.parent.Collecting? && s.queue != [] && InRange(s, s.queue[0].replica)
    case Write => s.parent.Releasing? && InRange(s, s.parent.next)
    case Wait => s.parent.Waiting? && InRange(s, s.parent.next) && !s.replicas[s.parent.next].alive
    case Timeout => s.parent.Collecting? || s.parent.Waiting?
  }

  function Update(s: State, i: nat, r: Replica): State
    requires InRange(s, i)
  {
    s.(replicas := s.replicas[i := r])
  }

  function Apply(s: State, phases: nat, step: Step): State
    requires Enabled(s, phases, step)
  {
    match step
    case Announce(i) =>
      var r := s.replicas[i];
      Update(s, i, r.(stdout := r.stdout + [r.announced], announced := r.announced + 1))
    case Start(i) =>
      var r := s.replicas[i];
      Update(s, i, r.(stdin := r.stdin - 1, started := r.started + 1))
    case Finish(i) =>
      var r := s.replicas[i];
      Update(s, i, r.(finished := r.finished + 1))
    case Exit(i) => Update(s, i, s.replicas[i].(alive := false, exitedOk := true))
    case Die(i) => Update(s, i, s.replicas[i].(alive := false))
    case Read(i) =>
      var r := s.replicas[i];
      if r.stdout != []
      then Update(s, i, r.(stdout := r.stdout[1..])).(queue := s.queue + [Ready(i, r.stdout[0])])
      else Update(s, i, r.(readerOpen := false)).(queue := s.queue + [Eof(i)])
    case ReaderFails(i) =>
      Update(s, i, s.replicas[i].(readerOpen := false)).(queue := s.queue + [ReaderError(i)])
    case Get => Collect(s.(queue := s.queue[1..]), s.queue[0])
    case Write => Release(s, phases)
    case Wait =>
      if !s.replicas[s.parent.next].exitedOk then s.(parent := Raised(BadExit))
      else if s.parent.next + 1 < |s.replicas| then s.(parent := Waiting(s.parent.next + 1))
      else s.(parent := Done)
    case Timeout => s.(parent := Raised(TimedOut))
  }

  /** The parent handles one event of the current phase. */
  function Collect(s: State, e: Event): State
    requires s.parent.Collecting? && InRange(s, e.replica)
  {
    var Collecting(phase, ready) := s.parent;
    if !e.Ready? then s.(parent := Raised(ReplicaStopped))
    else if e.phase != phase || e.replica in ready
    then s.(parent := Raised(UnexpectedReadiness))
    else
      var r := s.replicas[e.replica];
      var counted := Update(s, e.replica, r.(collected := r.collected + 1));
      if |ready| + 1 == |s.replicas| then counted.(parent := Releasing(phase, 0))
      else counted.(parent := Collecting(phase, ready + {e.replica}))
  }

  /** The parent writes START to one replica; the last write ends the barrier. */
  function Release(s: State, phases: nat): State
    requires s.parent.Releasing? && InRange(s, s.parent.next)
  {
    var Releasing(phase, i) := s.parent;
    var r := s.replicas[i];
    if !r.alive then s.(parent := Raised(BrokenPipe))
    else
      var written := Update(s, i, r.(stdin := r.stdin + 1, released := r.released + 1));
      if i + 1 < |s.replicas| then written.(parent := Releasing(phase, i + 1))
      else if phase + 1 < phases then written.(parent := Collecting(phase + 1, {}))
      else written.(parent := Waiting(0))
  }

  const NEW_REPLICA := Replica(0, 0, 0, 0, 0, [], 0, true, false, true)

  predicate Initial(s: State, phases: nat) {
    && |s.replicas| > 0 && phases > 0
    && (forall i :: 0 <= i < |s.replicas| ==> s.replicas[i] == NEW_REPLICA)
    && s.queue == [] && s.parent == Collecting(0, {})
  }

  // ----- the inductive invariant

  /** The phases announced by replica i that are still in the queue, in queue order. */
  function Queued(queue: seq<Event>, i: nat): seq<nat> {
    if queue == [] then []
    else (if queue[0].Ready? && queue[0].replica == i then [queue[0].phase] else []) + Queued(queue[1..], i)
  }

  lemma {:induction false} QueuedAppend(queue: seq<Event>, e: Event, i: nat)
    ensures Queued(queue + [e], i) == Queued(queue, i) + (if e.Ready? && e.replica == i then [e.phase] else [])
  {
    if queue == [] {
      assert (queue + [e])[1..] == [];
    } else {
      assert (queue + [e])[1..] == queue[1..] + [e];
      QueuedAppend(queue[1..], e, i);
    }
  }

  predicate ReplicaOk(r: Replica, queued: seq<nat>, phases: nat) {
    && r.finished <= r.started <= r.announced <= r.finished + 1
    && r.announced <= phases
    && r.started <= r.released <= r.collected <= r.announced
    && r.stdin == r.released - r.started
    && (if r.collected == r.announced then queued == [] && r.stdout == []
        else || (queued == [r.collected] && r.stdout == [])
             || (queued == [] && r.stdout == [r.collected]))
    && (r.exitedOk ==> !r.alive && r.finished == phases)
  }

  predicate ParentOk(s: State, phases: nat) {
    var n := |s.replicas|;
    match s.parent
    case Collecting(k, ready) =>
      && k < phases && |ready| < n && (forall i :: i in ready ==> i < n)
      && forall i :: 0 <= i < n ==>
           s.replicas[i].released == k && s.replicas[i].collected == k + (if i in ready then 1 else 0)
    case Releasing(k, next) =>
      && k < phases && next < n
      && forall i :: 0 <= i < n ==>
           s.replicas[i].collected == k + 1 && s.replicas[i].released == k + (if i < next then 1 else 0)
    case Waiting(next) =>
      && next < n
      && (forall i :: 0 <= i < n ==> s.replicas[i].released == phases)
      && forall i :: 0 <= i < next ==> s.replicas[i].exitedOk
    case Raised(failure) => failure != UnexpectedReadiness
    case Done => forall i :: 0 <= i < n ==> s.replicas[i].exitedOk
  }

  /** No START is written before every announcement of its phase has been collected. */
  predicate Barrier(s: State) {
    forall i, j :: 0 <= i < |s.replicas| && 0 <= j < |s.replicas| ==>
      s.replicas[i].released <= s.replicas[j].collected
  }

  predicate Inv(s: State, phases: nat) {
    && |s.replicas| > 0
    && (forall i :: 0 <= i < |s.replicas| ==> ReplicaOk(s.replicas[i], Queued(s.queue, i), phases))
    && (forall e :: e in s.queue ==> InRange(s, e.replica))
    && Barrier(s) && ParentOk(s, phases)
  }

  lemma InitialInv(s: State, phases: nat)
    requires Initial(s, phases)
    ensures Inv(s, phases)
  {
  }

  /** A step of one replica or its reader: what the parent counted stays the same. */
  predicate LocalChange(s: State, t: State, i: nat, appended: seq<Event>) {
    && InRange(s, i) && |t.replicas| == |s.replicas|
    && t.replicas[i].collected == s.replicas[i].collected
    && t.replicas[i].released == s.replicas[i].released
    && (s.replicas[i].exitedOk ==> t.replicas[i].exitedOk)
    && t == Update(s, i, t.replicas[i]).(queue := s.queue + appended)
    && |appended| <= 1
    && forall e :: e in appended ==> e.replica == i
  }

  lemma LocalChangeKeepsReplica(s: State, t: State, phases: nat, i: nat, appended: seq<Event>, j: nat)
    requires LocalChange(s, t, i, appended) && InRange(s, j)
    requires ReplicaOk(s.replicas[j], Queued(s.queue, j), phases)
    requires ReplicaOk(t.replicas[i],
                       if appended == [] then Queued(s.queue, i) else Queued(s.queue + appended, i), phases)
    ensures ReplicaOk(t.replicas[j], Queued(t.queue, j), phases)
  {
    if appended == [] {
      assert t.queue == s.queue;
    } else {
      assert appended == [appended[0]] && appended[0] in appended;
      QueuedAppend(s.queue, appended[0], j);
      assert j != i ==> Queued(t.queue, j) == Queued(s.queue, j);
    }
  }

  lemma LocalChangeKeepsInv(s: State, t: State, phases: nat, i: nat, appended: seq<Event>)
    requires Inv(s, phases) && LocalChange(s, t, i, appended)
    requires ReplicaOk(t.replicas[i],
                       if appended == [] then Queued(s.queue, i) else Queued(s.queue + appended, i), phases)
    ensures Inv(t, phases)
  {
    forall j | 0 <= j < |t.replicas| ensures ReplicaOk(t.replicas[j], Queued(t.queue, j), phases) {
      LocalChangeKeepsReplica(s, t, phases, i, appended, j);
    }
    LocalChangeKeepsParent(s, t, phases, i, appended);
  }

  lemma LocalChangeKeepsParent(s: State, t: State, phases: nat, i: nat, appended: seq<Event>)
    requires Barrier(s) && ParentOk(s, phases) && LocalChange(s, t, i, appended)
    ensures Barrier(t) && ParentOk(t, phases)
  {
    forall j | 0 <= j < |s.replicas|
      ensures t.replicas[j].collected == s.replicas[j].collected && t.replicas[j].released == s.replicas[j].released
      ensures s.replicas[j].exitedOk ==> t.replicas[j].exitedOk
    {
    }
  }

  /** Every step of every process keeps the invariant; deaths and reader failures included. */
  lemma StepKeepsInv(s: State, phases: nat, step: Step)
    requires Inv(s, phases) && Enabled(s, phases, step)
    ensures Inv(Apply(s, phases, step), phases)
  {
    match step
    case Announce(i) => AnnounceKeepsInv(s, phases, i);
    case Start(i) => StartKeepsInv(s, phases, i);
    case Finish(i) => FinishKeepsInv(s, phases, i);
    case Exit(i) => ExitKeepsInv(s, phases, i);
    case Die(i) => DieKeepsInv(s, phases, i);
    case Read(i) => ReadKeepsInv(s, phases, i);
    case ReaderFails(i) => ReaderFailsKeepsInv(s, phases, i);
    case Get => GetKeepsInv(s, phases);
    case Write => WriteKeepsInv(s, phases);
    case Wait => WaitKeepsInv(s, phases);
    case Timeout =>
  }

  lemma StartKeepsInv(s: State, phases: nat, i: nat)
    requires Inv(s, phases) && Enabled(s, phases, Start(i))
    ensures Inv(Apply(s, phases, Start(i)), phases)
  {
    assert ReplicaOk(s.replicas[i], Queued(s.queue, i), phases);
    LocalChangeKeepsInv(s, Apply(s, phases, Start(i)), phases, i, []);
  }

  lemma FinishKeepsInv(s: State, phases: nat, i: nat)
    requires Inv(s, phases) && Enabled(s, phases, Finish(i))
    ensures Inv(Apply(s, phases, Finish(i)), phases)
  {
    assert ReplicaOk(s.replicas[i], Queued(s.queue, i), phases);
    LocalChangeKeepsInv(s, Apply(s, phases, Finish(i)), phases, i, []);
  }

  lemma ExitKeepsInv(s: State, phases: nat, i: nat)
    requires Inv(s, phases) && Enabled(s, phases, Exit(i))
    ensures Inv(Apply(s, phases, Exit(i)), phases)
  {
    assert ReplicaOk(s.replicas[i], Queued(s.queue, i), phases);
    LocalChangeKeepsInv(s, Apply(s, phases, Exit(i)), phases, i, []);
  }

  lemma DieKeepsInv(s: State, phases: nat, i: nat)
    requires Inv(s, phases) && Enabled(s, phases, Die(i))
    ensures Inv(Apply(s, phases, Die(i)), phases)
  {
    assert ReplicaOk(s.replicas[i], Queued(s.queue, i), phases);
    LocalChangeKeepsInv(s, Apply(s, phases, Die(i)), phases, i, []);
  }

  lemma ReaderFailsKeepsInv(s: State, phases: nat, i: nat)
    requires Inv(s, phases) && Enabled(s, phases, ReaderFails(i))
    ensures Inv(Apply(s, phases, ReaderFails(i)), phases)
  {
    assert ReplicaOk(s.replicas[i], Queued(s.queue, i), phases);
    QueuedAppend(s.queue, ReaderError(i), i);
    LocalChangeKeepsInv(s, Apply(s, phases, ReaderFails(i)), phases, i, [ReaderError(i)]);
  }

  lemma WaitKeepsInv(s: State, phases: nat)
    requires Inv(s, phases) && Enabled(s, phases, Wait)
    ensures Inv(Apply(s, phases, Wait), phases)
  {
  }

  lemma AnnounceKeepsInv(s: State, phases: nat, i: nat)
    requires Inv(s, phases) && Enabled(s, phases, Announce(i))
    ensures Inv(Apply(s, phases, Announce(i)), phases)
  {
    var t := Apply(s, phases, Announce(i));
    assert ReplicaOk(s.replicas[i], Queued(s.queue, i), phases);
    assert Queued(s.queue, i) == [] && s.replicas[i].stdout == [];
    LocalChangeKeepsInv(s, t, phases, i, []);
  }

  lemma ReadKeepsInv(s: State, phases: nat, i: nat)
    requires Inv(s, phases) && Enabled(s, phases, Read(i))
    ensures Inv(Apply(s, phases, Read(i)), phases)
  {
    var t := Apply(s, phases, Read(i));
    var r := s.replicas[i];
    var e := if r.stdout != [] then Ready(i, r.stdout[0]) else Eof(i);
    assert ReplicaOk(r, Queued(s.queue, i), phases);
    QueuedAppend(s.queue, e, i);
    LocalChangeKeepsInv(s, t, phases, i, [e]);
  }

  function Below(n: nat): (all: set<nat>)
    ensures |all| == n && forall k: nat :: k in all <==> k < n
  {
    if n == 0 then {} else Below(n - 1) + {n - 1}
  }

  /** A set of n - 1 numbers below n misses exactly one. */
  lemma OneMissing(ready: set<nat>, n: nat, i: nat)
    requires (forall k :: k in ready ==> k < n) && i !in ready && i < n && |ready| + 1 == n
    ensures forall k: nat :: k < n ==> k in ready || k == i
  {
    SubsetOfSameSize(ready + {i}, Below(n));
  }

  lemma SubsetOfSameSize(a: set<nat>, b: set<nat>)
    requires a <= b && |a| == |b|
    ensures a == b
  {
    assert |b - a| == 0;
  }

  /** The parent never sees an announcement of another phase or a repeated one, even when a fast
      replica announces the next phase before its peer received START. */
  lemma ReadinessIsExpected(s: State, phases: nat)
    requires Inv(s, phases) && Enabled(s, phases, Get) && s.queue[0].Ready?
    ensures s.queue[0].phase == s.parent.phase && s.queue[0].replica !in s.parent.ready
    ensures s.replicas[s.queue[0].replica].collected + 1 == s.replicas[s.queue[0].replica].announced
  {
    var i := s.queue[0].replica;
    assert ReplicaOk(s.replicas[i], Queued(s.queue, i), phases);
    assert Queued(s.queue, i)[0] == s.queue[0].phase;
  }

  lemma CollectKeepsReplicas(s: State, phases: nat, j: nat)
    requires Inv(s, phases) && Enabled(s, phases, Get) && InRange(s, j)
    ensures ReplicaOk(Apply(s, phases, Get).replicas[j], Queued(s.queue[1..], j), phases)
  {
    assert ReplicaOk(s.replicas[j], Queued(s.queue, j), phases);
    if s.queue[0].Ready? {
      ReadinessIsExpected(s, phases);
    }
  }

  lemma CollectKeepsParent(s: State, phases: nat)
    requires Inv(s, phases) && Enabled(s, phases, Get)
    ensures ParentOk(Apply(s, phases, Get), phases)
  {
    if s.queue[0].Ready? {
      ReadinessIsExpected(s, phases);
      if |s.parent.ready| + 1 == |s.replicas| {
        OneMissing(s.parent.ready, |s.replicas|, s.queue[0].replica);
      }
    }
  }

  lemma GetKeepsInv(s: State, phases: nat)
    requires Inv(s, phases) && Enabled(s, phases, Get)
    ensures Inv(Apply(s, phases, Get), phases)
  {
    var t := Apply(s, phases, Get);
    CollectKeepsParent(s, phases);
    forall j | 0 <= j < |t.replicas| ensures ReplicaOk(t.replicas[j], Queued(t.queue, j), phases) {
      CollectKeepsReplicas(s, phases, j);
    }
    forall i, j | 0 <= i < |t.replicas| && 0 <= j < |t.replicas|
      ensures t.replicas[i].released <= t.replicas[j].collected
    {
      assert s.replicas[i].released <= s.replicas[j].collected;
    }
  }

  lemma ReleaseKeepsReplicas(s: State, phases: nat, j: nat)
    requires Inv(s, phases) && Enabled(s, phases, Write) && InRange(s, j)
    ensures var t := Apply(s, phases, Write);
            ReplicaOk(t.replicas[j], Queued(t.queue, j), phases)
    ensures var t := Apply(s, phases, Write);
            t.parent.Raised? || t.replicas[j].released <= s.parent.phase + 1 == t.replicas[j].collected
  {
    assert ReplicaOk(s.replicas[j], Queued(s.queue, j), phases);
  }

  lemma ReleaseKeepsParent(s: State, phases: nat)
    requires Inv(s, phases) && Enabled(s, phases, Write)
    ensures Barrier(Apply(s, phases, Write)) && ParentOk(Apply(s, phases, Write), phases)
  {
    var t := Apply(s, phases, Write);
    forall j | 0 <= j < |t.replicas|
      ensures t.parent.Raised? || t.replicas[j].released <= s.parent.phase + 1 == t.replicas[j].collected
    {
      ReleaseKeepsReplicas(s, phases, j);
    }
  }

  lemma WriteKeepsInv(s: State, phases: nat)
    requires Inv(s, phases) && Enabled(s, phases, Write)
    ensures Inv(Apply(s, phases, Write), phases)
  {
    var t := Apply(s, phases, Write);
    forall j | 0 <= j < |t.replicas| ensures ReplicaOk(t.replicas[j], Queued(t.queue, j), phases) {
      ReleaseKeepsReplicas(s, phases, j);
    }
    ReleaseKeepsParent(s, phases);
  }

  // ----- runs

  predicate Legal(s: State, phases: nat, run: seq<Step>)
    decreases |run|
  {
    run == [] || (Enabled(s, phases, run[0]) && Legal(Apply(s, phases, run[0]), phases, run[1..]))
  }

  function After(s: State, phases: nat, run: seq<Step>): State
    requires Legal(s, phases, run)
    decreases |run|
  {
    if run == [] then s else After(Apply(s, phases, run[0]), phases, run[1..])
  }

  lemma {:induction false} RunKeepsInv(s: State, phases: nat, run: seq<Step>)
    requires Inv(s, phases) && Legal(s, phases, run)
    ensures Inv(After(s, phases, run), phases)
    decreases |run|
  {
    if run != [] {
      StepKeepsInv(s, phases, run[0]);
      RunKeepsInv(Apply(s, phases, run[0]), phases, run[1..]);
    }
  }

  predicate InPhase(r: Replica, phase: nat) { r.started == phase + 1 && r.finished == phase }

  /** In every run, with deaths, reader failures and timeouts at any step: no replica starts a
      phase before all replicas announced it, and two replicas never are in different phases. */
  lemma PhasesNeverOverlap(s: State, phases: nat, run: seq<Step>, i: nat, j: nat, k: nat)
    requires Initial(s, phases) && Legal(s, phases, run) && i < |s.replicas| && j < |s.replicas|
    ensures |After(s, phases, run).replicas| == |s.replicas|
    ensures var t := After(s, phases, run).replicas;
            && (t[i].started > k ==> t[j].announced > k)
            && (InPhase(t[i], k) && t[j].started > t[j].finished ==> InPhase(t[j], k))
    ensures !(After(s, phases, run).parent == Raised(UnexpectedReadiness))
  {
    InitialInv(s, phases);
    RunKeepsInv(s, phases, run);
    RunKeepsReplicas(s, phases, run);
    var t := After(s, phases, run);
    assert ReplicaOk(t.replicas[i], Queued(t.queue, i), phases);
    assert ReplicaOk(t.replicas[j], Queued(t.queue, j), phases);
    assert t.replicas[i].released <= t.replicas[j].collected;
    assert t.replicas[j].released <= t.replicas[i].collected;
  }

  lemma {:induction false} RunKeepsReplicas(s: State, phases: nat, run: seq<Step>)
    requires Legal(s, phases, run)
    ensures |After(s, phases, run).replicas| == |s.replicas|
    decreases |run|
  {
    if run != [] {
      RunKeepsReplicas(Apply(s, phases, run[0]), phases, run[1..]);
    }
  }

  // ----- runs without failures

  predicate Normal(step: Step) { !step.Die? && !step.ReaderFails? && !step.Timeout? }

  predicate CalmReplica(r: Replica) { (r.alive || r.exitedOk) && (r.readerOpen || r.exitedOk) }

  predicate CalmEvent(s: State, e: Event) {
    InRange(s, e.replica) && !e.ReaderError? && (e.Eof? ==> s.replicas[e.replica].exitedOk)
  }

  predicate Undisturbed(s: State) {
    && (forall r :: r in s.replicas ==> CalmReplica(r))
    && (forall e :: e in s.queue ==> CalmEvent(s, e))
    && !s.parent.Raised?
  }

  lemma LocalChangeUndisturbed(s: State, t: State, i: nat, appended: seq<Event>)
    requires Undisturbed(s) && LocalChange(s, t, i, appended) && CalmReplica(t.replicas[i])
    requires forall e :: e in appended ==> CalmEvent(t, e)
    ensures Undisturbed(t)
  {
    forall e | e in t.queue ensures CalmEvent(t, e) {
      assert e in s.queue ==> CalmEvent(s, e);
    }
  }

  lemma GetUndisturbed(s: State, phases: nat)
    requires Inv(s, phases) && Undisturbed(s) && Enabled(s, phases, Get)
    ensures Undisturbed(Apply(s, phases, Get))
  {
    var e := s.queue[0];
    assert CalmEvent(s, e) && CalmReplica(s.replicas[e.replica]);
    assert ReplicaOk(s.replicas[e.replica], Queued(s.queue, e.replica), phases);
    assert e.Ready?;
    ReadinessIsExpected(s, phases);
    var t := Apply(s, phases, Get);
    forall f | f in t.queue ensures CalmEvent(t, f) {
      assert CalmEvent(s, f);
    }
  }

  lemma WriteUndisturbed(s: State, phases: nat)
    requires Inv(s, phases) && Undisturbed(s) && Enabled(s, phases, Write)
    ensures Undisturbed(Apply(s, phases, Write))
  {
    var i := s.parent.next;
    assert CalmReplica(s.replicas[i]) && ReplicaOk(s.replicas[i], Queued(s.queue, i), phases);
    var t := Apply(s, phases, Write);
    forall f | f in t.queue ensures CalmEvent(t, f) {
      assert CalmEvent(s, f);
    }
  }

  lemma ReplicaStepUndisturbed(s: State, phases: nat, step: Step)
    requires Undisturbed(s) && Enabled(s, phases, step)
    requires step.Announce? || step.Start? || step.Finish? || step.Exit?
    ensures Undisturbed(Apply(s, phases, step))
  {
    assert CalmReplica(s.replicas[step.i]);
    match step
    case Announce(i) => LocalChangeUndisturbed(s, Apply(s, phases, step), i, []);
    case Start(i) => LocalChangeUndisturbed(s, Apply(s, phases, step), i, []);
    case Finish(i) => LocalChangeUndisturbed(s, Apply(s, phases, step), i, []);
    case Exit(i) => LocalChangeUndisturbed(s, Apply(s, phases, step), i, []);
  }

  lemma ReadUndisturbed(s: State, phases: nat, i: nat)
    requires Inv(s, phases) && Undisturbed(s) && Enabled(s, phases, Read(i))
    ensures Undisturbed(Apply(s, phases, Read(i)))
  {
    var r := s.replicas[i];
    assert CalmReplica(r);
    LocalChangeUndisturbed(s, Apply(s, phases, Read(i)), i, [if r.stdout != [] then Ready(i, r.stdout[0]) else Eof(i)]);
  }

  /** Without deaths, reader failures and timeouts the parent never raises. */
  lemma NormalStepUndisturbed(s: State, phases: nat, step: Step)
    requires Inv(s, phases) && Undisturbed(s) && Enabled(s, phases, step) && Normal(step)
    ensures Undisturbed(Apply(s, phases, step))
  {
    match step
    case Get => GetUndisturbed(s, phases);
    case Write => WriteUndisturbed(s, phases);
    case Read(i) => ReadUndisturbed(s, phases, i);
    case Wait => assert CalmReplica(s.replicas[s.parent.next]);
    case _ => ReplicaStepUndisturbed(s, phases, step);
  }

  /** Without failures some process can always move until the parent is done: no deadlock. */
  lemma SomeStepEnabled(s: State, phases: nat) returns (step: Step)
    requires Inv(s, phases) && Undisturbed(s) && s.parent != Done
    ensures Normal(step) && Enabled(s, phases, step)
  {
    match s.parent
    case Releasing(k, next) => step := Write;
    case Waiting(next) =>
      assert CalmReplica(s.replicas[next]) && ReplicaOk(s.replicas[next], Queued(s.queue, next), phases);
      step := if s.replicas[next].alive then ReplicaStep(s, phases, next) else Wait;
    case Collecting(k, ready) =>
      if s.queue != [] {
        assert s.queue[0] in s.queue;
        step := Get;
      } else {
        var i := Missing(ready, |s.replicas|);
        assert CalmReplica(s.replicas[i]) && ReplicaOk(s.replicas[i], Queued(s.queue, i), phases);
        step := ReplicaStep(s, phases, i);
      }
  }

  function Missing(ready: set<nat>, n: nat): (i: nat)
    requires |ready| < n
    ensures i < n && i !in ready
  {
    if n - 1 !in ready then n - 1 else Missing(ready - {n - 1}, n - 1)
  }

  /** What replica i, or its reader, can do next. */
  function ReplicaStep(s: State, phases: nat, i: nat): Step
    requires InRange(s, i)
  {
    var r := s.replicas[i];
    if r.stdout != [] then Read(i)
    else if r.finished == phases then Exit(i)
    else if r.announced == r.finished then Announce(i)
    else if r.started < r.announced then Start(i)
    else Finish(i)
  }

  // ----- termination

  function ReplicaMeasure(r: Replica, phases: nat): int {
    3 * (phases - r.announced) + (phases - r.started) + (phases - r.finished) + (phases - r.released)
    + 2 * |r.stdout| + (if r.alive then 1 else 0) + (if r.readerOpen then 2 else 0)
  }

  function Sum(rs: seq<Replica>, phases: nat): int {
    if rs == [] then 0 else ReplicaMeasure(rs[0], phases) + Sum(rs[1..], phases)
  }

  lemma {:induction false} SumUpdate(rs: seq<Replica>, phases: nat, i: nat, r: Replica)
    requires i < |rs|
    ensures Sum(rs[i := r], phases) == Sum(rs, phases) - ReplicaMeasure(rs[i], phases) + ReplicaMeasure(r, phases)
  {
    if i == 0 {
      assert rs[i := r][1..] == rs[1..];
    } else {
      assert rs[i := r][1..] == rs[1..][i - 1 := r];
      SumUpdate(rs[1..], phases, i - 1, r);
    }
  }

  lemma {:induction false} SumNonNegative(rs: seq<Replica>, phases: nat)
    requires forall r :: r in rs ==> r.finished <= r.started <= r.announced <= phases && r.released <= phases
    ensures Sum(rs, phases) >= 0
  {
    if rs != [] {
      assert rs[0] in rs;
      SumNonNegative(rs[1..], phases);
    }
  }

  function ParentMeasure(s: State): int {
    match s.parent
    case Collecting(_, _) => |s.replicas| + 1
    case Releasing(_, _) => |s.replicas| + 1
    case Waiting(next) => |s.replicas| - next
    case Raised(_) => 0
    case Done => 0
  }

  function Measure(s: State, phases: nat): int {
    Sum(s.replicas, phases) + |s.queue| + ParentMeasure(s)
  }

  lemma MeasureNonNegative(s: State, phases: nat)
    requires Inv(s, phases)
    ensures Measure(s, phases) >= 0
  {
    forall r | r in s.replicas
      ensures r.finished <= r.started <= r.announced <= phases && r.released <= phases
    {
      var i :| 0 <= i < |s.replicas| && s.replicas[i] == r;
      assert ReplicaOk(s.replicas[i], Queued(s.queue, i), phases);
    }
    SumNonNegative(s.replicas, phases);
  }

  lemma LocalChangeDecreases(s: State, t: State, phases: nat, i: nat, appended: seq<Event>)
    requires LocalChange(s, t, i, appended)
    requires ReplicaMeasure(t.replicas[i], phases) + |appended| < ReplicaMeasure(s.replicas[i], phases)
    ensures Measure(t, phases) < Measure(s, phases)
  {
    SumUpdate(s.replicas, phases, i, t.replicas[i]);
  }

  lemma GetDecreases(s: State, phases: nat)
    requires Enabled(s, phases, Get)
    ensures Measure(Apply(s, phases, Get), phases) < Measure(s, phases)
  {
    var i := s.queue[0].replica;
    SumUpdate(s.replicas, phases, i, s.replicas[i].(collected := s.replicas[i].collected + 1));
  }

  lemma WriteDecreases(s: State, phases: nat)
    requires Enabled(s, phases, Write)
    ensures Measure(Apply(s, phases, Write), phases) < Measure(s, phases)
  {
    var r := s.replicas[s.parent.next];
    SumUpdate(s.replicas, phases, s.parent.next, r.(stdin := r.stdin + 1, released := r.released + 1));
  }

  lemma ReadDecreases(s: State, phases: nat, i: nat)
    requires Enabled(s, phases, Read(i))
    ensures Measure(Apply(s, phases, Read(i)), phases) < Measure(s, phases)
  {
    var r := s.replicas[i];
    LocalChangeDecreases(s, Apply(s, phases, Read(i)), phases, i,
      [if r.stdout != [] then Ready(i, r.stdout[0]) else Eof(i)]);
  }

  /** Every step, failures included, makes the measure smaller. */
  lemma StepDecreases(s: State, phases: nat, step: Step)
    requires ParentOk(s, phases) && Enabled(s, phases, step)
    ensures Measure(Apply(s, phases, step), phases) < Measure(s, phases)
  {
    match step
    case Get => GetDecreases(s, phases);
    case Write => WriteDecreases(s, phases);
    case Wait =>
    case Timeout =>
    case Read(i) => ReadDecreases(s, phases, i);
    case ReaderFails(i) => LocalChangeDecreases(s, Apply(s, phases, step), phases, i, [ReaderError(i)]);
    case _ => LocalChangeDecreases(s, Apply(s, phases, step), phases, step.i, []);
  }

  lemma {:induction false} RunIsBounded(s: State, phases: nat, run: seq<Step>)
    requires Inv(s, phases) && Legal(s, phases, run)
    ensures |run| + Measure(After(s, phases, run), phases) <= Measure(s, phases)
    decreases |run|
  {
    if run != [] {
      StepKeepsInv(s, phases, run[0]);
      StepDecreases(s, phases, run[0]);
      RunIsBounded(Apply(s, phases, run[0]), phases, run[1..]);
    }
  }

  lemma {:induction false} InitialSum(rs: seq<Replica>, phases: nat)
    requires forall i :: 0 <= i < |rs| ==> rs[i] == NEW_REPLICA
    ensures Sum(rs, phases) == |rs| * (6 * phases + 3)
  {
    if rs != [] {
      InitialSum(rs[1..], phases);
    }
  }

  lemma {:induction false} NormalRunUndisturbed(s: State, phases: nat, run: seq<Step>)
    requires Inv(s, phases) && Undisturbed(s) && Legal(s, phases, run)
    requires forall step :: step in run ==> Normal(step)
    ensures Undisturbed(After(s, phases, run))
    decreases |run|
  {
    if run != [] {
      assert run[0] in run;
      NormalStepUndisturbed(s, phases, run[0]);
      StepKeepsInv(s, phases, run[0]);
      NormalRunUndisturbed(Apply(s, phases, run[0]), phases, run[1..]);
    }
  }

  /** Every run is finite, with a bound known in advance.  A run without failures that cannot be
      continued has ended with the parent done and every replica through all its phases. */
  lemma BarrierTerminates(s: State, phases: nat, run: seq<Step>)
    requires Initial(s, phases) && Legal(s, phases, run)
    ensures |run| <= |s.replicas| * (6 * phases + 3) + |s.replicas| + 1
    ensures (forall step :: step in run ==> Normal(step)) ==>
              var t := After(s, phases, run);
              && !t.parent.Raised?
              && ((forall step: Step :: Normal(step) ==> !Enabled(t, phases, step)) ==>
                    t.parent == Done && forall r :: r in t.replicas ==> r.finished == phases && r.exitedOk)
  {
    InitialInv(s, phases);
    RunKeepsInv(s, phases, run);
    RunIsBounded(s, phases, run);
    MeasureNonNegative(After(s, phases, run), phases);
    InitialSum(s.replicas, phases);
    if forall step :: step in run ==> Normal(step) {
      NormalRunUndisturbed(s, phases, run);
      var t := After(s, phases, run);
      if forall step: Step :: Normal(step) ==> !Enabled(t, phases, step) {
        if t.parent != Done {
          var step := SomeStepEnabled(t, phases);
          assert false;
        }
        forall r | r in t.replicas ensures r.finished == phases && r.exitedOk {
          var i :| 0 <= i < |t.replicas| && t.replicas[i] == r;
          assert ReplicaOk(t.replicas[i], Queued(t.queue, i), phases);
        }
      }
    }
  }
}
