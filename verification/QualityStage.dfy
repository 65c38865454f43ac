/** A resumable quality stage (benchmarks/bench_working_set_quality.py).  The artifact on disk
    holds the attention selections and the scored samples; the prefix cache, the dictionaries of
    the replay loop and the scoring RNG live in the process and are rebuilt on resume.  The
    process may die before any write of the artifact. */
module QualityStage {
  import opened Wrappers

  datatype Sample = Sample(id: nat, group: nat, question: nat)

  /** A compression decision; `kept` is its retention signature. */
  datatype Decision = Decision(kept: seq<int>, locked: bool, detail: int)
  datatype Output = Output(text: seq<char>, tokens: seq<int>)
  datatype Generated = Generated(output: Output, decision: Decision, hit: bool)

  datatype ReuseScope = PerRequest | MediaGroup
  datatype SelectionScope = NoSelection | PerQuestion | FirstQuestion

  datatype Record = Record(sample: Sample, output: Output, score: int, hit: bool, decision: Decision,
                           reused: bool, source: nat)
  datatype Selection = Selection(sample: Sample, decision: Decision)

  datatype Failure =
    | SelectionMissing | ReuseLost | ReplayHitPrefix | NoRecordedFirst | RestoreChangedTokens
    | RestoreChangedRetention | RestoreNotLocked | RestoreNotCold | ScoreReplayDiffers
    | SelectionOutOfOrder
  /** What a session is asked to do: stages with attention selection run in two phases. */
  datatype Phase = All | SelectionOnly | ReplayOnly

  datatype Outcome = Complete | SelectionComplete | Refused | Crashed | Failed(failure: Failure)

  function FailedWith(f: Option<Failure>): Outcome {
    match f case Some(failure) => Failed(failure) case None => Complete
  }

  /** The stage and its deterministic surroundings: `select` is the dense selection of one sample,
      `cold` the decision of a prefill without a cached prefix (given a locked selection, if any),
      `answer` the output under a decision, `draw` the scorer with its RNG state. */
  datatype Stage = Stage(
    order: seq<Sample>,
    scope: ReuseScope,
    selectionScope: SelectionScope,
    usesRng: bool,
    seed: int,
    select: Sample -> Decision,
    cold: (Sample, Option<Decision>) -> Decision,
    answer: (Sample, Decision, bool) -> Output,
    grade: (Sample, seq<char>) -> int,
    draw: (int, Sample, seq<char>) -> (int, int))
  {
    /** Sample i has an id of its own, and question index 0 exactly when its group is new. */
    predicate InPlace(i: nat)
      requires i < |order|
    {
      && (forall k :: 0 <= k < i ==> order[k].id != order[i].id)
      && (order[i].question == 0 <==> forall k :: 0 <= k < i ==> order[k].group != order[i].group)
    }

    predicate WellOrdered(n: nat)
      requires n <= |order|
    {
      n == 0 || (WellOrdered(n - 1) && InPlace(n - 1))
    }

    /** The stage table pairs per-question selection with per-request reuse only, and an engine
        that is given a selection reports it as locked. */
    ghost predicate Ok() {
      && WellOrdered(|order|)
      && (selectionScope.PerQuestion? ==> scope.PerRequest?)
      && (forall s, d :: cold(s, Some(d)).locked)
      && forall s :: !select(s).locked
    }

    function Score(rng: int, s: Sample, text: seq<char>): (int, int) {
      if usesRng then draw(rng, s, text) else (grade(s, text), rng)
    }

    predicate NeedsSelection(s: Sample) {
      selectionScope.PerQuestion? || (selectionScope.FirstQuestion? && s.question == 0)
    }

    /** The samples whose attention must be selected, in stage order. */
    function SelectionSamples(n: nat): seq<Sample>
      requires n <= |order|
    {
      if n == 0 then []
      else SelectionSamples(n - 1) + (if NeedsSelection(order[n - 1]) then [order[n - 1]] else [])
    }

    function LockedSelection(s: Sample): Option<Decision> {
      if NeedsSelection(s) then Some(select(s)) else None
    }

    /** Position of grouped_by_id[group][0] for the group of sample i, searched from k. */
    function FirstFrom(i: nat, k: nat): (f: nat)
      requires k <= i < |order|
      ensures k <= f <= i && order[f].group == order[i].group
      ensures forall j :: k <= j < f ==> order[j].group != order[i].group
      decreases i - k
    {
      if order[k].group == order[i].group then k else FirstFrom(i, k + 1)
    }

    function First(i: nat): Sample
      requires i < |order|
    {
      order[FirstFrom(i, 0)]
    }

    /** The decision retained with the prefix of the group of sample i: that of its first question. */
    function GroupDecision(i: nat): Decision
      requires i < |order|
    {
      cold(First(i), LockedSelection(First(i)))
    }

    // ----- the uninterrupted run, as a function

    predicate RefHit(i: nat)
      requires i < |order|
    {
      scope.MediaGroup? && order[i].question > 0
    }

    function RefDecision(i: nat): Decision
      requires i < |order|
    {
      if RefHit(i) then GroupDecision(i) else cold(order[i], LockedSelection(order[i]))
    }

    function RefOutput(i: nat): Output
      requires i < |order|
    {
      answer(order[i], RefDecision(i), RefHit(i))
    }

    /** RNG state after the first n samples were scored once each. */
    function RefRng(n: nat): int
      requires n <= |order|
    {
      if n == 0 then seed else Score(RefRng(n - 1), order[n - 1], RefOutput(n - 1).text).1
    }

    function RefRecord(i: nat): Record
      requires i < |order|
    {
      Record(order[i], RefOutput(i), Score(RefRng(i), order[i], RefOutput(i).text).0, RefHit(i),
             RefDecision(i), RefHit(i), First(i).id)
    }

    /** completed_by_id after the first n samples */
    function CompletedById(n: nat): map<nat, Record>
      requires n <= |order|
    {
      if n == 0 then map[] else CompletedById(n - 1)[order[n - 1].id := RefRecord(n - 1)]
    }

    lemma {:induction false} AllInPlace(n: nat, i: nat)
      requires i < n <= |order| && WellOrdered(n)
      ensures InPlace(i)
    {
      if i < n - 1 {
        AllInPlace(n - 1, i);
      }
    }

    /** The first question of the group of sample i comes earlier exactly if i is a follow-up. */
    lemma FirstComesEarlier(i: nat)
      requires Ok() && i < |order|
      ensures First(i).question == 0 && First(i).group == order[i].group
      ensures FirstFrom(i, 0) < i <==> order[i].question > 0
    {
      AllInPlace(|order|, i);
      AllInPlace(|order|, FirstFrom(i, 0));
    }

    lemma SameGroupSameFirst(i: nat, j: nat)
      requires i < |order| && j < |order| && order[i].group == order[j].group
      ensures First(i) == First(j)
    {
      var a, b := FirstFrom(i, 0), FirstFrom(j, 0);
      assert a == b;
    }
  }

  /** The recorded selections are those of a prefix of the samples that need one. */
  ghost predicate SelectionsOk(stage: Stage, selections: seq<Selection>) {
    var expected := stage.SelectionSamples(|stage.order|);
    && |selections| <= |expected|
    && forall k :: 0 <= k < |selections| ==> selections[k] == Selection(expected[k], stage.select(expected[k]))
  }

  /** The scored samples are a prefix of those of the uninterrupted run. */
  ghost predicate SamplesOk(stage: Stage, samples: seq<Record>) {
    && |samples| <= |stage.order|
    && forall k :: 0 <= k < |samples| ==> samples[k] == stage.RefRecord(k)
  }

  lemma SelectionStep(stage: Stage, selections: seq<Selection>)
    requires SelectionsOk(stage, selections) && |selections| < |stage.SelectionSamples(|stage.order|)|
    ensures var next := stage.SelectionSamples(|stage.order|)[|selections|];
            SelectionsOk(stage, selections + [Selection(next, stage.select(next))])
  {
  }

  /** selection_by_id */
  function SelectionsById(selections: seq<Selection>): map<nat, Decision> {
    if selections == [] then map[]
    else
      var last := selections[|selections| - 1];
      SelectionsById(selections[..|selections| - 1])[last.sample.id := last.decision]
  }

  lemma {:induction false} CompletedLookup(stage: Stage, n: nat, k: nat)
    requires stage.Ok() && k < n <= |stage.order|
    ensures stage.order[k].id in stage.CompletedById(n)
    ensures stage.CompletedById(n)[stage.order[k].id] == stage.RefRecord(k)
  {
    if k < n - 1 {
      stage.AllInPlace(|stage.order|, n - 1);
      CompletedLookup(stage, n - 1, k);
    }
  }

  /** With all selections recorded, the lookup finds exactly the samples that need one. */
  lemma {:induction false} SelectionLookup(stage: Stage, selections: seq<Selection>, n: nat, i: nat)
    requires stage.Ok() && n <= |stage.order| && i < |stage.order|
    requires |selections| == |stage.SelectionSamples(n)|
    requires forall k :: 0 <= k < |selections| ==>
               selections[k] == Selection(stage.SelectionSamples(n)[k], stage.select(stage.SelectionSamples(n)[k]))
    ensures stage.order[i].id in SelectionsById(selections) <==> i < n && stage.NeedsSelection(stage.order[i])
    ensures stage.order[i].id in SelectionsById(selections) ==>
              SelectionsById(selections)[stage.order[i].id] == stage.select(stage.order[i])
  {
    if n > 0 {
      stage.AllInPlace(|stage.order|, n - 1);
      stage.AllInPlace(|stage.order|, i);
      if stage.NeedsSelection(stage.order[n - 1]) {
        var front := selections[..|selections| - 1];
        assert stage.SelectionSamples(n)[..|front|] == stage.SelectionSamples(n - 1);
        SelectionLookup(stage, front, n - 1, i);
      } else {
        SelectionLookup(stage, selections, n - 1, i);
      }
    }
  }

  /** The stage process and its artifact.  `samples` and `selections` are what the artifact holds
      on disk; the other fields die with the process.  `cache` is the engine's prefix cache: the
      retained decision of each loaded group. */
  class QualityRun {
    const stage: Stage
    var samples: seq<Record>
    var selections: seq<Selection>
    var cache: map<nat, Decision>
    var rng: int
    var completed: map<nat, Record>
    var firstDecisions: map<nat, Decision>
    var loaded: set<nat>
    var active: Option<nat>

    /** Between any two writes the artifact is a prefix of what an uninterrupted run writes. */
    ghost predicate Valid()
      reads this`samples, this`selections
    {
      && stage.Ok()
      && SamplesOk(stage, samples)
      && SelectionsOk(stage, selections)
    }

    constructor (stage: Stage)
      requires stage.Ok()
      ensures Valid() && this.stage == stage && samples == [] && selections == []
    {
      this.stage, samples, selections := stage, [], [];
    }

    /** One request: a loaded group answers from its retained prefix, another group runs a cold
        prefill and leaves its prefix in the cache. */
    method Generate(s: Sample, replay: Option<Decision>) returns (g: Generated)
      modifies this`cache
      ensures g.hit <==> s.group in old(cache)
      ensures g.decision == if g.hit then old(cache)[s.group] else stage.cold(s, replay)
      ensures g.output == stage.answer(s, g.decision, g.hit)
      ensures cache == old(cache)[s.group := g.decision]
    {
      var hit := s.group in cache;
      var decision := if hit then cache[s.group] else stage.cold(s, replay);
      cache := cache[s.group := decision];
      g := Generated(stage.answer(s, decision, hit), decision, hit);
    }

    /** Accept only an ordered prefix of the required, unlocked selections. */
    method ValidateSelections(expected: seq<Sample>) returns (ok: bool)
      ensures ok <==>
              && |selections| <= |expected|
              && forall i :: 0 <= i < |selections| ==>
                  selections[i].sample == expected[i] && !selections[i].decision.locked
    {
      if |selections| > |expected| {
        return false;
      }
      for i := 0 to |selections|
        invariant forall k :: 0 <= k < i ==> selections[k].sample == expected[k] && !selections[k].decision.locked
      {
        if selections[i].sample != expected[i] || selections[i].decision.locked {
          return false;
        }
      }
      return true;
    }

    /** Select attention densely for the samples that still need it, writing after each one. */
    method SelectionPhase() returns (stop: Option<Outcome>)
      requires Valid()
      modifies this`selections
      ensures Valid() && |old(selections)| <= |selections|
      ensures stop == None || stop == Some(Crashed)
      ensures stop == None ==> |selections| == |stage.SelectionSamples(|stage.order|)|
    {
      var expected := stage.SelectionSamples(|stage.order|);
      var ok := ValidateSelections(expected);
      if !ok {
        return Some(Failed(SelectionOutOfOrder));
      }
      var records := selections;
      for i := |selections| to |expected|
        invariant Valid() && records == selections && |records| == i && |old(selections)| <= i
      {
        SelectionStep(stage, selections);
        records := records + [Selection(expected[i], stage.select(expected[i]))];
        var alive: bool := *;
        if !alive {
          return Some(Crashed);
        }
        selections := records;
      }
      stop := None;
    }

    /** Run one measured sample.  The precondition is what cross-question reuse relies on: for a
        follow-up of a media group the cache holds the group's first-question prefix and
        `first` carries its retention signature. */
    method RunSample(i: nat, first: Option<Decision>, selection: Option<Decision>)
      returns (failure: Option<Failure>, record: Record, rng': int)
      requires Valid() && i < |stage.order|
      requires stage.RefHit(i) ==>
                 && stage.order[i].group in cache && cache[stage.order[i].group] == stage.RefDecision(i)
                 && first.Some? && first.value.kept == stage.RefDecision(i).kept
      requires !stage.RefHit(i) ==> stage.order[i].group !in cache
      requires selection == stage.LockedSelection(stage.order[i])
      requires rng == stage.RefRng(i)
      modifies this`cache
      ensures failure == None && record == stage.RefRecord(i)
      ensures rng' == stage.RefRng(i + 1)
      ensures cache == old(cache)[stage.order[i].group := stage.RefDecision(i)]
    {
      var s := stage.order[i];
      var g := Generate(s, selection);
      record := Record(s, g.output, 0, g.hit, g.decision, false, stage.First(i).id);
      rng' := rng;
      if selection.Some? && !g.decision.locked {
        return Some(RestoreNotLocked), record, rng';
      }
      if selection.Some? && g.hit {
        return Some(ReplayHitPrefix), record, rng';
      }
      var reused := s.question > 0 && g.hit && first.Some? && g.decision.kept == first.value.kept;
      if stage.scope.MediaGroup? && s.question > 0 && !reused {
        return Some(ReuseLost), record, rng';
      }
      var scored := stage.Score(rng, s, g.output.text);
      record := record.(score := scored.0, reused := reused);
      rng' := scored.1;
      failure := None;
    }

    /** Rebuild the prefix of a partly finished group: replay its first question cold and check it
        against the checkpoint. */
    method RestoreFirstQuestionPrefix(i: nat, selection: Option<Decision>)
      returns (failure: Option<Failure>, decision: Decision)
      requires Valid() && i < |stage.order| && stage.RefHit(i)
      requires completed == stage.CompletedById(i)
      requires selection == stage.LockedSelection(stage.First(i))
      requires stage.order[i].group !in cache
      modifies this`cache
      ensures failure == None && decision == stage.RefDecision(i)
      ensures cache == old(cache)[stage.order[i].group := decision]
    {
      var first := stage.First(i);
      stage.FirstComesEarlier(i);
      CompletedLookup(stage, i, stage.FirstFrom(i, 0));
      var g := Generate(first, selection);
      decision := g.decision;
      if first.id !in completed {
        return Some(NoRecordedFirst), decision;
      }
      var recorded := completed[first.id];
      if g.output.tokens != recorded.output.tokens {
        return Some(RestoreChangedTokens), decision;
      }
      if g.hit {
        return Some(RestoreNotCold), decision;
      }
      if decision.kept != recorded.decision.kept {
        return Some(RestoreChangedRetention), decision;
      }
      if selection.Some? && !decision.locked {
        return Some(RestoreNotLocked), decision;
      }
      failure := None;
    }

    /** Score the checkpointed predictions again, in order, to bring the RNG to its state. */
    method ReplayScores() returns (rng: int, agree: bool)
      requires Valid()
      ensures agree && rng == stage.RefRng(|samples|)
    {
      rng := stage.seed;
      for i := 0 to |samples|
        invariant rng == stage.RefRng(i)
      {
        var sample := samples[i];
        if stage.usesRng {
          var replayed := stage.Score(rng, sample.sample, sample.output.text);
          if replayed.0 != sample.score {
            return rng, false;
          }
          rng := replayed.1;
        }
      }
      agree := true;
    }

    method IndexSamples()
      requires Valid()
      modifies this`completed
      ensures completed == stage.CompletedById(|samples|)
    {
      completed := map[];
      for i := 0 to |samples|
        invariant completed == stage.CompletedById(i)
      {
        completed := completed[samples[i].sample.id := samples[i]];
      }
    }

    /** Before position i of a media-group stage: only the group of the previous sample can be in
        the cache, and a loaded group has its first-question prefix and decision in place. */
    ghost predicate PrefixState(i: nat)
      requires i <= |stage.order|
      reads this`cache, this`firstDecisions, this`loaded, this`active
    {
      stage.scope.MediaGroup? ==>
        match active
        case None => cache == map[] && loaded == {}
        case Some(g) =>
          && i > 0 && stage.order[i - 1].group == g
          && cache == map[g := stage.GroupDecision(i - 1)] && loaded == {g}
          && g in firstDecisions && firstDecisions[g] == cache[g]
    }

    lemma LookupOf(s: Sample)
      requires Valid() && s in stage.order && |selections| == |stage.SelectionSamples(|stage.order|)|
      ensures s.id in SelectionsById(selections) <==> stage.NeedsSelection(s)
      ensures s.id in SelectionsById(selections) ==> SelectionsById(selections)[s.id] == stage.select(s)
    {
      var i :| 0 <= i < |stage.order| && stage.order[i] == s;
      SelectionLookup(stage, selections, |stage.order|, i);
    }

    /** Clear the cache when the media group changes, and restore the prefix of a group whose
        first question is already in the artifact. */
    method PreparePrefix(i: nat, selectionById: map<nat, Decision>) returns (failure: Option<Failure>)
      requires Valid() && i < |stage.order| && PrefixState(i)
      requires |selections| == |stage.SelectionSamples(|stage.order|)|
      requires selectionById == SelectionsById(selections) && completed == stage.CompletedById(i)
      modifies this`cache, this`firstDecisions, this`loaded, this`active
      ensures failure == None
      ensures PrefixReady(i)
    {
      hide SamplesOk, SelectionsOk;
      var s := stage.order[i];
      stage.AllInPlace(|stage.order|, i);
      if active == Some(s.group) && stage.scope.MediaGroup? {
        stage.SameGroupSameFirst(i - 1, i);
      }
      if stage.scope.PerRequest? {
        cache, loaded, active := map[], {}, None;
      } else if active != Some(s.group) {
        cache, loaded, active := map[], {}, Some(s.group);
      }
      failure := None;
      if stage.scope.MediaGroup? && s.question > 0 && s.group !in loaded {
        var first := stage.First(i);
        LookupOf(first);
        var decision;
        failure, decision := RestoreFirstQuestionPrefix(i,
          if first.id in selectionById then Some(selectionById[first.id]) else None);
        firstDecisions, loaded := firstDecisions[s.group := decision], loaded + {s.group};
      }
    }

    /** The state right before sample i runs: a follow-up of a media group finds the prefix of its
        first question, every other sample finds nothing. */
    ghost predicate PrefixReady(i: nat)
      requires i < |stage.order|
      reads this`cache, this`firstDecisions, this`loaded, this`active
    {
      var g := stage.order[i].group;
      && (stage.scope.MediaGroup? ==> active == Some(g))
      && (if stage.RefHit(i)
          then && cache == map[g := stage.GroupDecision(i)] && loaded == {g}
               && g in firstDecisions && firstDecisions[g] == cache[g]
          else cache == map[] && loaded == {})
    }

    /** The replay loop: rebuild RNG state and dictionaries from the artifact, then run the
        remaining samples, writing after each one. */
    method ReplayPhase() returns (o: Outcome)
      requires Valid() && cache == map[]
      requires |selections| == |stage.SelectionSamples(|stage.order|)|
      modifies this`samples, this`cache, this`rng, this`completed, this`firstDecisions, this`loaded, this`active
      ensures Valid() && |old(samples)| <= |samples|
      ensures o == Complete || o == Crashed
      ensures o == Complete ==> |samples| == |stage.order|
    {
      var scoresAgree;
      rng, scoresAgree := ReplayScores();
      if !scoresAgree {
        return Failed(ScoreReplayDiffers);
      }
      IndexSamples();
      firstDecisions, loaded, active := map[], {}, None;
      o := RunRemaining(SelectionsById(selections));
    }

    method RunRemaining(selectionById: map<nat, Decision>) returns (o: Outcome)
      requires Valid() && PrefixState(|samples|)
      requires |selections| == |stage.SelectionSamples(|stage.order|)| && selectionById == SelectionsById(selections)
      requires rng == stage.RefRng(|samples|) && completed == stage.CompletedById(|samples|)
      modifies this`samples, this`cache, this`rng, this`completed, this`firstDecisions, this`loaded, this`active
      ensures Valid() && |old(samples)| <= |samples|
      ensures o == Complete || o == Crashed
      ensures o == Complete ==> |samples| == |stage.order|
    {
      hide Stage.Ok, SelectionsOk;
      while |samples| < |stage.order|
        invariant Valid() && PrefixState(|samples|) && |old(samples)| <= |samples|
        invariant rng == stage.RefRng(|samples|) && completed == stage.CompletedById(|samples|)
        decreases |stage.order| - |samples|
      {
        var failure, record := RunNext(|samples|, selectionById);
        if failure.Some? {
          return FailedWith(failure);
        }
        var alive := WriteSample(record);
        if !alive {
          return Crashed;
        }
      }
      o := Complete;
    }

    /** Atomic write of the artifact with one more sample. */
    method WriteSample(record: Record) returns (alive: bool)
      requires Valid() && |samples| < |stage.order| && record == stage.RefRecord(|samples|)
      modifies this`samples
      ensures Valid() && |samples| == |old(samples)| + (if alive then 1 else 0)
    {
      alive := *;
      if alive {
        samples := samples + [record];
      }
    }

    /** One iteration of the replay loop: prepare the prefix, look up the locked selection, run
        the sample and note it. */
    method RunNext(i: nat, selectionById: map<nat, Decision>) returns (failure: Option<Failure>, record: Record)
      requires Valid() && i < |stage.order| && PrefixState(i)
      requires |selections| == |stage.SelectionSamples(|stage.order|)| && selectionById == SelectionsById(selections)
      requires rng == stage.RefRng(i) && completed == stage.CompletedById(i)
      modifies this`cache, this`rng, this`completed, this`firstDecisions, this`loaded, this`active
      ensures failure == None && record == stage.RefRecord(i)
      ensures rng == stage.RefRng(i + 1) && completed == stage.CompletedById(i + 1) && PrefixState(i + 1)
    {
      hide Stage.Ok, SamplesOk, SelectionsOk;
      var s := stage.order[i];
      record := Record(s, Output([], []), 0, false, Decision([], false, 0), false, 0);
      failure := PreparePrefix(i, selectionById);
      if failure.Some? {
        return;
      }
      var selection;
      failure, selection := LockedSelectionOf(i, selectionById);
      if failure.Some? {
        return;
      }
      var first := if s.group in firstDecisions then Some(firstDecisions[s.group]) else None;
      failure, record, rng := RunSample(i, first, selection);
      if failure.Some? {
        return;
      }
      NoteSample(i, record);
    }

    method LockedSelectionOf(i: nat, selectionById: map<nat, Decision>)
      returns (failure: Option<Failure>, selection: Option<Decision>)
      requires Valid() && i < |stage.order|
      requires |selections| == |stage.SelectionSamples(|stage.order|)| && selectionById == SelectionsById(selections)
      ensures failure == None && selection == stage.LockedSelection(stage.order[i])
    {
      var s := stage.order[i];
      LookupOf(s);
      failure, selection := None, None;
      if stage.NeedsSelection(s) {
        if s.id !in selectionById {
          return Some(SelectionMissing), None;
        }
        selection := Some(selectionById[s.id]);
      }
    }

    method NoteSample(i: nat, record: Record)
      requires stage.Ok() && i < |stage.order| && record == stage.RefRecord(i)
      requires completed == stage.CompletedById(i)
      requires stage.scope.MediaGroup? ==>
                 && active == Some(stage.order[i].group)
                 && cache == map[stage.order[i].group := stage.RefDecision(i)]
                 && (if stage.RefHit(i)
                     then && loaded == {stage.order[i].group}
                          && stage.order[i].group in firstDecisions
                          && firstDecisions[stage.order[i].group] == stage.RefDecision(i)
                     else loaded == {})
      modifies this`completed, this`firstDecisions, this`loaded
      ensures completed == stage.CompletedById(i + 1) && PrefixState(i + 1)
    {
      var s := stage.order[i];
      stage.FirstComesEarlier(i);
      completed := completed[s.id := record];
      if s.question == 0 {
        firstDecisions := firstDecisions[s.group := record.decision];
        if stage.scope.MediaGroup? {
          loaded := loaded + {s.group};
        }
      }
    }

    /** A stage with attention selection is run phase by phase, any other stage in one go. */
    predicate Accepts(phase: Phase) { stage.selectionScope.NoSelection? <==> phase.All? }

    /** One process: a fresh engine, then the selection phase, then (unless only the selection was
        asked for) the replay phase, which insists on a complete selection. */
    method Session(phase: Phase) returns (o: Outcome)
      requires Valid()
      modifies this
      ensures Valid() && |old(samples)| <= |samples| && |old(selections)| <= |selections|
      ensures !o.Failed?
      ensures o == Refused <==>
                !Accepts(phase) || (phase.ReplayOnly? && |old(selections)| != |stage.SelectionSamples(|stage.order|)|)
      ensures o == Refused ==> samples == old(samples) && selections == old(selections)
      ensures o == SelectionComplete ==> phase.SelectionOnly? && samples == old(samples)
      ensures o == Complete ==> |samples| == |stage.order|
    {
      cache := map[];
      if !Accepts(phase) || (phase.ReplayOnly? && |selections| != |stage.SelectionSamples(|stage.order|)|) {
        return Refused;
      }
      var stop := SelectionPhase();
      if stop.Some? {
        return stop.value;
      }
      if phase.SelectionOnly? {
        return SelectionComplete;
      }
      o := ReplayPhase();
    }

    /** Any sequence of sessions, each possibly cut off: no check of a resumed session ever fails,
        what the artifact holds is always a prefix of the uninterrupted run, and a completed stage
        holds exactly the records of the uninterrupted run. */
    method Campaign(requests: seq<Phase>) returns (outcomes: seq<Outcome>)
      requires Valid()
      modifies this
      ensures Valid() && |outcomes| == |requests| && |old(samples)| <= |samples|
      ensures forall o :: o in outcomes ==> !o.Failed?
      ensures Complete in outcomes ==>
                |samples| == |stage.order| && forall k :: 0 <= k < |samples| ==> samples[k] == stage.RefRecord(k)
    {
      outcomes := [];
      for i := 0 to |requests|
        invariant Valid() && |outcomes| == i && |old(samples)| <= |samples|
        invariant forall o :: o in outcomes ==> !o.Failed?
        invariant Complete in outcomes ==> |samples| == |stage.order|
      {
        var o := Session(requests[i]);
        outcomes := outcomes + [o];
      }
    }
  }
}
