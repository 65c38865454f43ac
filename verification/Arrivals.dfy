/** The arrival controller of benchmarks/bench_online_vllm.py: submit requests at their offsets while
    stepping the engine, and note when each was submitted, answered and finished. */
module Arrivals {

  // ----- the surroundings, as the controller may rely on them

  /** A clock that does not run backwards; times are nanoseconds. */
  class Clock {
    var time: int

    constructor () { time := 0; }

    method Read() returns (t: int)
      modifies this
      ensures t == time >= old(time)
    {
      var passed :| passed >= 0;
      time := time + passed;
      t := time;
    }

    method Sleep(d: nat)
      modifies this
      ensures time >= old(time) + d
    {
      var passed :| passed >= 0;
      time := time + d + passed;
    }
  }

  /** What one engine step says about one request. */
  datatype Output = Output(id: nat, tokens: nat, finished: bool)

  /** Outputs of one step: about different running requests, and a finished one has tokens. */
  predicate StepOutputs(outputs: seq<Output>, running: set<nat>) {
    && (forall i :: 0 <= i < |outputs| ==> outputs[i].id in running && (outputs[i].finished ==> outputs[i].tokens > 0))
    && forall i, j :: 0 <= i < j < |outputs| ==> outputs[i].id != outputs[j].id
  }

  function FinishedIn(outputs: seq<Output>): set<nat> { set o | o in outputs && o.finished :: o.id }

  lemma FinishedSnoc(outputs: seq<Output>, o: Output)
    ensures FinishedIn(outputs + [o]) == FinishedIn(outputs) + (if o.finished then {o.id} else {})
  {
    assert forall p :: p in outputs + [o] <==> p in outputs || p == o;
    assert o in outputs + [o];
  }

  /** An engine that finishes everything after finitely many steps; `work` bounds their number. */
  class Engine {
    var running: set<nat>
    var work: nat

    constructor ()
      ensures Valid() && running == {}
    {
      running, work := {}, 0;
    }

    predicate Valid()
      reads this
    {
      running != {} ==> work > 0
    }

    method AddRequest(id: nat)
      requires id !in running
      modifies this
      ensures Valid() && running == old(running) + {id}
    {
      var more :| more >= 0;
      running, work := running + {id}, work + 1 + more;
    }

    method Step() returns (outputs: seq<Output>)
      requires Valid() && running != {}
      modifies this
      ensures Valid() && work < old(work)
      ensures StepOutputs(outputs, old(running)) && running == old(running) - FinishedIn(outputs)
    {
      if work == 1 {
        outputs := FinishAll(running);
      } else {
        outputs := *;
        if !StepOutputs(outputs, running) { outputs := []; }
      }
      running, work := running - FinishedIn(outputs), work - 1;
    }

    static method FinishAll(ids: set<nat>) returns (outputs: seq<Output>)
      ensures StepOutputs(outputs, ids) && FinishedIn(outputs) == ids
    {
      outputs := [];
      var left := ids;
      while left != {}
        invariant left <= ids && StepOutputs(outputs, ids) && FinishedIn(outputs) == ids - left
        invariant forall i :: 0 <= i < |outputs| ==> outputs[i].id !in left
        decreases left
      {
        var id :| id in left;
        FinishedSnoc(outputs, Output(id, 1, true));
        outputs, left := outputs + [Output(id, 1, true)], left - {id};
      }
    }
  }

  // ----- what the controller notes

  datatype Event = Submitted(id: nat) | Finished(id: nat)

  function InFlight(events: seq<Event>): int {
    if events == [] then 0 else InFlight(events[..|events| - 1]) + (if events[|events| - 1].Submitted? then 1 else -1)
  }

  /** The largest number of requests in flight at any moment of the run. */
  function Peak(events: seq<Event>): int {
    if events == [] then 0
    else
      var before := Peak(events[..|events| - 1]);
      if before < InFlight(events) then InFlight(events) else before
  }

  lemma {:induction false} PeakIsReached(events: seq<Event>)
    ensures forall n :: 0 <= n <= |events| ==> InFlight(events[..n]) <= Peak(events)
    ensures exists n :: 0 <= n <= |events| && InFlight(events[..n]) == Peak(events)
  {
    assert events[..|events|] == events;
    if events != [] {
      var before := events[..|events| - 1];
      PeakIsReached(before);
      forall n | 0 <= n <= |events| ensures InFlight(events[..n]) <= Peak(events) {
        if n < |events| { assert before[..n] == events[..n]; }
      }
      var n :| 0 <= n <= |before| && InFlight(before[..n]) == Peak(before);
      assert before[..n] == events[..n];
    }
  }

  lemma NextEvent(events: seq<Event>, e: Event)
    ensures InFlight(events + [e]) == InFlight(events) + (if e.Submitted? then 1 else -1)
    ensures Peak(events + [e]) == if Peak(events) < InFlight(events + [e]) then InFlight(events + [e]) else Peak(events)
  {
    assert (events + [e])[..|events|] == events;
  }

  lemma {:induction false} PeakBoundsInFlight(events: seq<Event>)
    ensures InFlight(events) <= Peak(events) && 0 <= Peak(events)
  {
    if events != [] { PeakBoundsInFlight(events[..|events| - 1]); }
  }

  /** The dictionaries of the controller and, in `events`, the order in which they grew. */
  datatype Log = Log(submitted: map<nat, int>, first: map<nat, int>, finished: map<nat, int>, events: seq<Event>)

  /** After n submissions, at time t: everything noted is in order. */
  ghost predicate TimesOk(log: Log, n: nat, started: int, offsets: seq<int>, t: int) {
    && n <= |offsets| && (forall i: nat :: i in log.submitted <==> i < n)
    && log.finished.Keys <= log.first.Keys <= log.submitted.Keys
    && (forall i :: i in log.submitted ==> started + offsets[i] <= log.submitted[i] <= t)
    && (forall i :: i in log.first ==> log.submitted[i] <= log.first[i] <= t)
    && (forall i :: i in log.finished ==> log.first[i] <= log.finished[i] <= t)
  }

  ghost predicate LogOk(log: Log, n: nat, started: int, offsets: seq<int>, t: int) {
    && TimesOk(log, n, started, offsets, t)
    && InFlight(log.events) == |log.submitted| - |log.finished| && SubmissionOrder(log.events) == Count(n)
  }

  /** The submissions among the events. */
  function SubmissionOrder(events: seq<Event>): seq<nat> {
    if events == [] then []
    else
      SubmissionOrder(events[..|events| - 1])
      + (if events[|events| - 1].Submitted? then [events[|events| - 1].id] else [])
  }

  function Count(n: nat): seq<nat> { seq(n, i => i) }

  lemma NextSubmission(events: seq<Event>, e: Event)
    ensures SubmissionOrder(events + [e]) == SubmissionOrder(events) + (if e.Submitted? then [e.id] else [])
  {
    assert (events + [e])[..|events|] == events;
  }

  // ----- the controller

  lemma LogHas(log: Log, n: nat, started: int, offsets: seq<int>, t: int)
    requires LogOk(log, n, started, offsets, t)
    ensures n <= |offsets| && forall i: nat :: i in log.submitted <==> i < n
    ensures log.finished.Keys <= log.first.Keys <= log.submitted.Keys
  {
  }

  /** Between two measurements only submissions happened: the peak is the old one or the newest count. */
  ghost predicate OnlyGrew(before: seq<Event>, events: seq<Event>) {
    Peak(events) == if Peak(before) < InFlight(events) then InFlight(events) else Peak(before)
  }

  lemma GrewNot(events: seq<Event>)
    ensures OnlyGrew(events, events)
  {
    PeakBoundsInFlight(events);
  }

  lemma GrewOnce(before: seq<Event>, events: seq<Event>, n: nat)
    requires OnlyGrew(before, events)
    ensures OnlyGrew(before, events + [Submitted(n)])
  {
    NextEvent(events, Submitted(n));
  }

  function WithSubmission(log: Log, n: nat, observed: int): Log {
    log.(submitted := log.submitted[n := observed], events := log.events + [Submitted(n)])
  }

  lemma SubmitTimes(log: Log, n: nat, started: int, offsets: seq<int>, t: int, observed: int)
    requires TimesOk(log, n, started, offsets, t) && n < |offsets| && t <= observed && started + offsets[n] <= observed
    ensures n !in log.submitted
    ensures TimesOk(WithSubmission(log, n, observed), n + 1, started, offsets, observed)
  {
  }

  lemma SubmitOne(log: Log, n: nat, started: int, offsets: seq<int>, t: int, observed: int)
    requires LogOk(log, n, started, offsets, t) && n < |offsets| && t <= observed && started + offsets[n] <= observed
    ensures LogOk(WithSubmission(log, n, observed), n + 1, started, offsets, observed)
  {
    hide InFlight, SubmissionOrder, TimesOk;
    SubmitTimes(log, n, started, offsets, t, observed);
    NextEvent(log.events, Submitted(n));
    NextSubmission(log.events, Submitted(n));
    assert Count(n + 1) == Count(n) + [n];
  }

  /** The inner loop: submit every pending request, in order, whose offset had passed at `now`. */
  method SubmitDue(engine: Engine, clock: Clock, offsets: seq<int>, started: int, now: int, n0: nat, log0: Log)
    returns (n: nat, log: Log)
    requires engine.Valid() && LogOk(log0, n0, started, offsets, clock.time) && now <= clock.time
    requires engine.running == log0.submitted.Keys - log0.finished.Keys
    modifies engine, clock
    ensures engine.Valid() && LogOk(log, n, started, offsets, clock.time) && n0 <= n && clock.time >= old(clock.time)
    ensures engine.running == log.submitted.Keys - log.finished.Keys && log.first == log0.first
    ensures log.finished == log0.finished
    ensures n < |offsets| ==> now - started < offsets[n]
    ensures n == n0 ==> log == log0 && engine.work == old(engine.work)
    ensures OnlyGrew(log0.events, log.events)
  {
    hide LogOk, OnlyGrew;
    n, log := n0, log0;
    GrewNot(log0.events);
    while n < |offsets| && offsets[n] <= now - started
      invariant engine.Valid() && LogOk(log, n, started, offsets, clock.time) && n0 <= n
      invariant clock.time >= old(clock.time)
      invariant engine.running == log.submitted.Keys - log.finished.Keys && log.first == log0.first
      invariant log.finished == log0.finished
      invariant n == n0 ==> log == log0 && engine.work == old(engine.work)
      invariant OnlyGrew(log0.events, log.events)
      decreases |offsets| - n
    {
      ghost var before := clock.time;
      LogHas(log, n, started, offsets, before);
      engine.AddRequest(n);
      var observed := clock.Read();
      SubmitOne(log, n, started, offsets, before, observed);
      GrewOnce(log0.events, log.events, n);
      log := WithSubmission(log, n, observed);
      n := n + 1;
    }
  }

  /** One output noted at time `observed`: its first token, and its end. */
  function NotedFirst(log: Log, o: Output, observed: int): Log {
    if o.tokens > 0 && o.id !in log.first then log.(first := log.first[o.id := observed]) else log
  }

  function NotedEnd(log: Log, o: Output, observed: int): Log {
    if o.finished then log.(finished := log.finished[o.id := observed], events := log.events + [Finished(o.id)])
      else log
  }

  function Noted(log: Log, o: Output, observed: int): Log { NotedEnd(NotedFirst(log, o, observed), o, observed) }

  lemma NoteFirst(log: Log, n: nat, started: int, offsets: seq<int>, o: Output, observed: int)
    requires LogOk(log, n, started, offsets, observed) && o.id in log.submitted
    ensures LogOk(NotedFirst(log, o, observed), n, started, offsets, observed)
    ensures o.tokens > 0 ==> o.id in NotedFirst(log, o, observed).first
  {
    hide InFlight, SubmissionOrder;
  }

  lemma NoteEnd(log: Log, n: nat, started: int, offsets: seq<int>, o: Output, observed: int)
    requires LogOk(log, n, started, offsets, observed) && o.id !in log.finished && (o.finished ==> o.id in log.first)
    ensures LogOk(NotedEnd(log, o, observed), n, started, offsets, observed)
  {
    hide InFlight, SubmissionOrder;
    NextEvent(log.events, Finished(o.id));
    NextSubmission(log.events, Finished(o.id));
  }

  lemma NoteOne(log: Log, n: nat, started: int, offsets: seq<int>, o: Output, observed: int)
    requires LogOk(log, n, started, offsets, observed)
    requires o.id in log.submitted && o.id !in log.finished && (o.finished ==> o.tokens > 0)
    ensures LogOk(Noted(log, o, observed), n, started, offsets, observed)
    ensures Peak(Noted(log, o, observed).events) == Peak(log.events)
    ensures Noted(log, o, observed).submitted == log.submitted
    ensures Noted(log, o, observed).finished.Keys == log.finished.Keys + (if o.finished then {o.id} else {})
  {
    hide LogOk, Peak, InFlight;
    NoteFirst(log, n, started, offsets, o, observed);
    NoteEnd(NotedFirst(log, o, observed), n, started, offsets, o, observed);
    NextEvent(log.events, Finished(o.id));
    PeakBoundsInFlight(log.events);
  }

  lemma LaterLogOk(log: Log, n: nat, started: int, offsets: seq<int>, t: int, later: int)
    requires LogOk(log, n, started, offsets, t) && t <= later
    ensures LogOk(log, n, started, offsets, later)
  {
  }

  /** Note the outputs of an engine step: the first token of a request once, its end when it finishes. */
  method Observe(outputs: seq<Output>, n: nat, log0: Log, started: int, offsets: seq<int>, observed: int,
                 ghost running: set<nat>)
    returns (log: Log)
    requires LogOk(log0, n, started, offsets, observed) && StepOutputs(outputs, running)
    requires running == log0.submitted.Keys - log0.finished.Keys
    ensures LogOk(log, n, started, offsets, observed) && log.submitted == log0.submitted
    ensures log.finished.Keys == log0.finished.Keys + FinishedIn(outputs)
    ensures Peak(log.events) == Peak(log0.events)
  {
    hide LogOk, Peak;
    log := log0;
    var k := 0;
    while k < |outputs|
      invariant k <= |outputs| && LogOk(log, n, started, offsets, observed) && log.submitted == log0.submitted
      invariant log.finished.Keys == log0.finished.Keys + FinishedIn(outputs[..k])
      invariant Peak(log.events) == Peak(log0.events)
    {
      assert outputs[..k + 1] == outputs[..k] + [outputs[k]];
      FinishedSnoc(outputs[..k], outputs[k]);
      NoteOne(log, n, started, offsets, outputs[k], observed);
      log := Noted(log, outputs[k], observed);
      k := k + 1;
    }
    assert outputs[..|outputs|] == outputs;
  }

  datatype Report = Report(started: int, completed: int, log: Log, peak: int)

  /** What the records of the report say: every request was submitted once, in index order and not
      before its offset; all are finished; and the peak is the true maximum in flight. */
  ghost predicate ReportOk(r: Report, offsets: seq<int>) {
    && SubmissionOrder(r.log.events) == Count(|offsets|) && r.peak == Peak(r.log.events)
    && forall i: nat :: i < |offsets| ==>
         && i in r.log.submitted && i in r.log.first && i in r.log.finished
         && 0 <= r.log.submitted[i] - (r.started + offsets[i]) <= r.log.first[i] - (r.started + offsets[i])
                                                                <= r.log.finished[i] - (r.started + offsets[i])
         && r.log.finished[i] <= r.completed
  }

  predicate IsDue(n: nat, offsets: seq<int>, started: int, t: int) { n < |offsets| && started + offsets[n] <= t }

  lemma AllFinished(log: Log, started: int, offsets: seq<int>, t: int, completed: int)
    requires LogOk(log, |offsets|, started, offsets, t) && t <= completed
    requires log.submitted.Keys - log.finished.Keys == {}
    ensures ReportOk(Report(started, completed, log, Peak(log.events)), offsets)
  {
    hide SubmissionOrder, Peak, InFlight;
    forall i: nat | i < |offsets| ensures i in log.submitted && i in log.finished && i in log.first {
      assert i in log.submitted;
      assert i !in log.submitted.Keys - log.finished.Keys;
    }
  }

  /** One engine step, and its outputs noted at the time they were seen. */
  method StepEngine(engine: Engine, clock: Clock, n: nat, log0: Log, started: int, offsets: seq<int>) returns (log: Log)
    requires engine.Valid() && engine.running != {} && LogOk(log0, n, started, offsets, clock.time)
    requires engine.running == log0.submitted.Keys - log0.finished.Keys
    modifies engine, clock
    ensures engine.Valid() && engine.work < old(engine.work) && clock.time >= old(clock.time)
    ensures LogOk(log, n, started, offsets, clock.time) && engine.running == log.submitted.Keys - log.finished.Keys
    ensures Peak(log.events) == Peak(log0.events)
  {
    hide LogOk, Peak;
    ghost var running := engine.running;
    var outputs := engine.Step();
    ghost var before := clock.time;
    var observed := clock.Read();
    LaterLogOk(log0, n, started, offsets, before, observed);
    log := Observe(outputs, n, log0, started, offsets, observed, running);
  }

  /** Sleep until a time, unless it has passed. */
  method WaitFor(clock: Clock, due: int)
    modifies clock
    ensures clock.time >= due && clock.time >= old(clock.time)
  {
    var t := clock.Read();
    if due - t > 0 {
      clock.Sleep(due - t);
    }
  }

  /** The controller.  It stops, for every engine and clock that keep their contracts. */
  method RunArrivals(engine: Engine, clock: Clock, offsets: seq<int>) returns (r: Report)
    requires engine.Valid() && engine.running == {}
    modifies engine, clock
    ensures ReportOk(r, offsets) && engine.running == {}
  {
    hide LogOk, Peak, InFlight, ReportOk;
    var started := clock.Read();
    var n, log, peak := 0, Log(map[], map[], map[], []), 0;
    EmptyLog(started, offsets, clock.time);
    while n < |offsets| || engine.running != {}
      invariant engine.Valid() && LogOk(log, n, started, offsets, clock.time)
      invariant engine.running == log.submitted.Keys - log.finished.Keys && peak == Peak(log.events)
      decreases |offsets| - n, engine.work, if IsDue(n, offsets, started, clock.time) then 0 else 1
    {
      ghost var head := clock.time;
      var now := clock.Read();
      LaterLogOk(log, n, started, offsets, head, clock.time);
      LogHas(log, n, started, offsets, clock.time);
      n, log := SubmitDue(engine, clock, offsets, started, now, n, log);
      LogHas(log, n, started, offsets, clock.time);
      InFlightIs(log, n, started, offsets, clock.time);
      ghost var submittedAt := clock.time;
      if peak < |log.submitted| - |log.finished| {
        peak := |log.submitted| - |log.finished|;
      }
      if engine.running != {} {
        log := StepEngine(engine, clock, n, log, started, offsets);
      } else if n < |offsets| {
        WaitFor(clock, started + offsets[n]);
        LaterLogOk(log, n, started, offsets, submittedAt, clock.time);
      }
    }
    LogHas(log, n, started, offsets, clock.time);
    ghost var last := clock.time;
    var completed := clock.Read();
    AllFinished(log, started, offsets, last, completed);
    r := Report(started, completed, log, peak);
  }

  lemma EmptyLog(started: int, offsets: seq<int>, t: int)
    ensures LogOk(Log(map[], map[], map[], []), 0, started, offsets, t) && Peak([]) == 0
  {
  }

  lemma InFlightIs(log: Log, n: nat, started: int, offsets: seq<int>, t: int)
    requires LogOk(log, n, started, offsets, t)
    ensures InFlight(log.events) == |log.submitted| - |log.finished|
  {
  }
}
