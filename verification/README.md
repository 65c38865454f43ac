# Prism Infer: a verified model

Prism Infer is an inference engine for vision-language models with a paged KV cache, and a set of
experiment drivers around it. This project models the parts of both that carry real state and proves,
in Dafny, what they promise. `dafny verify dfyconfig.toml` checks everything.

What is modelled, one module per file:

- **Experiment drivers that survive crashes.** `MatrixRun` is the performance matrix: a progress file,
  one output and one log per cell, archives of interrupted attempts, and a process that may die before
  any durable effect. `QualityStage` is a quality stage that rebuilds its prefix cache, dictionaries and
  scoring RNG from an artifact. In both, any sequence of crashes and resumes is compared with one
  uninterrupted run.
- **A distributed phase barrier.** `ReplicaBarrier` is the protocol between a parent, its reader threads
  and its replicas, as a transition system: safety under every interleaving and death, absence of
  deadlock, and termination.
- **Streams, sweeps and scans.** `SseClient` (frames from network chunks), `Intervals` (three union
  implementations against the set of covered instants), `ActivityIndex` (bisection and correlation
  lookup against plain scans), `PagedGather` (paged K/V against a dense sequence), `VisionPartition`
  (error statistics over shards and microbatches).
- **Workloads and their summary.** `Arrivals` (the vLLM arrival controller), `CacheWorkload` and
  `CacheMarker` (exact repeats, distinct media), `InterleavedContent` (prompt parser and printer),
  `WorkingSetSummary` (matrix aggregation), `SglangBudget`.
- **The KV cache engine** in its dense, block-level mode. `BlockPool` is the allocator. `KvState` states
  what must hold of pages, page tables and retained prefixes; `KvSteps`, `KvPublishSteps` and
  `KvEntrySteps` prove it of every page-level step, `KvRuns` of every run, with `KvSwap` for what is on
  the CPU; `KvCapacity`, `KvAdmission` and `KvDecode` account for pages, `KvSlots` says where a decode
  step writes; `KvManager` is the block manager's operations, `KvBudget` admission under the limits of a
  batch; `KvRecompute` follows a request that was sent back, and `KvServing` any number of requests
  through their lives. `KvTransfers` shows that the executor's order of deferred transfers
  has the effect of the scheduler's plan. `Paging`, `FiniteSets` and `Wrappers` hold what is shared.

How the source is read:

- A crash is a nondeterministic stop before each durable effect. Progress and artifact writes are
  atomic, a child process dies with its parent, Git identity and plan do not change unless a lemma says
  so, and digests and hashes are injective: a digest is the content, a page hash is the token history.
- File names are structured values (cell, kind, attempt) instead of formatted strings.
- The model engine is deterministic: what it answers depends on the sample and the decision in force.
  A KV row is determined by the token history up to its position; an image placeholder carries its
  media identity in its token. A row computed over missing rows may be anything, but it is a row of its
  position: a key of that length.
- JSON decoding is an uninterpreted function of a complete frame or file. Times are integer nanoseconds;
  where the code divides, reals are exact.
- Where the source leaves a choice to a policy (which prefix to evict, which free page to take, which
  pages a retained prefix keeps), the model takes any choice and the statements hold for all of them.
- `hide` only narrows what the verifier looks at inside one proof.

What turned out not to hold, each with its exact condition:

- `--resume` of the matrix can be refused for ever: a cell is recorded complete without looking at its
  output, but a resume insists on a JSON object (`ResumeRefusedIff`, `FinishedRefusedIff`,
  `UnresumableExample`).
- After a crash between an archive rename and the progress write the file is kept, but the next attempt
  record names no archive path for it (`UnrecordedIff`, `UnrecordedExample`).
- The read-only probe of the prefix cache stops at the end of the prompt, the allocation walks all tokens,
  or takes a retained prefix even if the walk finds more. So they differ exactly when the output of the
  request itself was published past its prompt, or the walk goes past the prefix (`ProbeIsExactIff`,
  `ProbeMisses`).
- Admission then raises for an admissible request: after its own output was published, or, if prompts are
  not chunked, when what is left behind the retained prefix no longer fits the batch. The second can hit a
  request that is new (`AdmissionRaisesIff`, `FreshRequestRaises`). The reused rows go on to count as
  computed: a whole prompt is never admitted again (`NeverAgain`), a part can be skipped (`SkippedRow`).
- Recompute preemption sends a decoding request back to prefill, which stops at the end of the prompt. It
  never gets all its rows back: the scheduler raises, or storing its prefix raises, or it decodes on with
  the rows of its earlier output missing, each under an exact condition (`Recompute`, `Readmit`, and three
  examples). A page with a gap is published all the same once its length is reached, and then its hash need
  not tell what it holds (`PublishingIsSoundIff`, `DecodeStep`).
- A request that comes back through its retained prefix gets pages for its prompt only. If its output had
  reached another page, its decode steps write to the place of another position (`SlotIsRightIff`); into a
  published page, whose hash then lies to later hits, if its prompt is aligned and that page is still
  published after the plan (`SlotKeepsInvIff`, `SlotAfterReturnIff`, `StrayExample`); and when their length
  completes a page, publishing fails (`DecodeStep`, `DecodeOn`).
- `can_append` can allow a step for which `copy_on_write` raises, for a request that shares its published
  last page (`AppendAllowedInVain`, a state in the invariant). The exact condition of the exception is the
  contract of `CopyOnWrite`; it is never raised into an unpublished last page (`OpenTailCanCopy`), so never
  for a request that was not sent back (`NothingStops`).
- A decode step that can schedule nobody has swapped requests out and raises, and the transfers are lost
  (`TransfersAreLost`); exactly when that happens is `NobodyRuns`, in the contract of `Runner.DecodeStep`.
- On images smaller than 31 by 31 pixels the content marker loses bits, and variants can look alike
  (`VariantsAlikeIff`).

Conversely, as long as no request is sent back, no run of the scheduler harms anybody, every request that
decodes has its complete history (`HonestRun`, `HonestIsReady`), and its next row goes to a page that nobody
reads beyond its own prefix (`WritesDisturbNobody`). The union functions of the trace exporters, which taken
by themselves go wrong on inverted intervals (`UnionsAgreeIff`), are only handed lists on which they are
right (`DeviceUnions`).

## Model

| member | source | states |
|---|---|---|
| MatrixRun.CanonicalCells | benchmarks/run_working_set_matrix.py:40-46 | the matrix is 15 different cells: for every workset all Prism variants and one default run of each other engine, and nothing else |
| MatrixRun.ResumeRefusedIff | benchmarks/run_working_set_matrix.py:182-232 | over every state that a run with crashes can leave, `--resume` is refused exactly if the Git or plan identity changed or the output of a completed cell is not a JSON object |
| MatrixRun.UnresumableExample | benchmarks/run_working_set_matrix.py:348-376 | all 15 cells ran to completion and one of them left text that is no JSON object: the matrix is complete and its resume is refused |
| MatrixRun.RunOfOk | benchmarks/run_working_set_matrix.py:306-372 | the disk after any number of uninterrupted cells, built cell by cell as the run loop leaves it, is in order with exactly these outputs complete |
| MatrixRun.FinishedRefusedIff | benchmarks/run_working_set_matrix.py:135-146 | a matrix that ran through without interruption can be resumed exactly if each of its outputs is a JSON object |
| MatrixRun.UnrecordedIff | benchmarks/run_working_set_matrix.py:149-179 | after an accepted resume the attempt record names no archive for an archived file exactly if the archive was there before the resume started |
| MatrixRun.UnrecordedExample | benchmarks/run_working_set_matrix.py:149-179 | one rename, one crash, one more resume: the archive exists and its record says there is none |
| MatrixRun.RecordsRefused | benchmarks/run_working_set_matrix.py:182-232 | one completed cell whose output is no JSON object, anywhere, makes the record check fail with that reason |
| MatrixRun.RecordsAccepted | benchmarks/run_working_set_matrix.py:182-232 | if all completed outputs are JSON objects the record check passes, whatever the trailing record is |
| MatrixRun.CompleteMeansEveryCell | benchmarks/run_working_set_matrix.py:366-376 | a `complete` status means that every cell completed exactly once, in canonical order, with a recorded digest that matches its file |
| MatrixRun.ArchivingKeepsDiskOk | benchmarks/run_working_set_matrix.py:149-179 | moving a file of an interrupted attempt finds its archive name unused, even after a crash between the rename and the progress write, and keeps the disk invariant |
| MatrixRun.KeptTransitive | benchmarks/run_working_set_matrix.py:149-179 | being kept, as the same file with the same bytes, at its own path or an archive of it, composes over any number of runs |
| MatrixRun.KeptAtOnePlace | benchmarks/run_working_set_matrix.py:149-179 | a kept file is at exactly one path: its own, or exactly one archive of it |
| MatrixRun.CommitKeepsDiskOk | benchmarks/run_working_set_matrix.py:227-232 | committing a resume archives the trailing attempt, clears all remaining artifacts and keeps every file |
| MatrixRun.AppendKeepsDiskOk | benchmarks/run_working_set_matrix.py:318-329 | appending a running record keeps the canonical prefix and all completed records |
| MatrixRun.ChildKeepsDiskOk | benchmarks/run_working_set_matrix.py:338-355 | whatever a child does to its own output and log, and wherever it is killed, the disk invariant survives |
| MatrixRun.CompletionKeepsDiskOk | benchmarks/run_working_set_matrix.py:365-372 | recording a completed cell with the digest of its output keeps the invariant and extends the prefix by one |
| MatrixRun.MatrixDriver.constructor | benchmarks/run_working_set_matrix.py:257-276 | a driver starts with the canonical cells and no progress file |
| MatrixRun.MatrixDriver.WriteProgress | benchmarks/run_working_set_matrix.py:329 | the progress file is replaced as a whole, or the process died before |
| MatrixRun.MatrixDriver.ArchiveFile | benchmarks/run_working_set_matrix.py:161-170 | an existing file moves to its archive name unless that exists; nothing else changes |
| MatrixRun.MatrixDriver.ArchiveTrailing | benchmarks/run_working_set_matrix.py:161-179 | for the trailing attempt the archive name is never taken |
| MatrixRun.MatrixDriver.ArchiveInterruptedAttempt | benchmarks/run_working_set_matrix.py:149-179 | both files of the attempt are archived and the attempt is noted; after a crash in between, the output alone was moved |
| MatrixRun.MatrixDriver.CheckRecords | benchmarks/run_working_set_matrix.py:190-226 | the loop over the records agrees with the specification and counts the completed cells, whose evidence is then on disk |
| MatrixRun.MatrixDriver.ResumeProgress | benchmarks/run_working_set_matrix.py:182-232 | a refused resume changes nothing; an accepted one leaves exactly the completed prefix, the moved files and the noted attempt, or crashed |
| MatrixRun.MatrixDriver.CommitResume | benchmarks/run_working_set_matrix.py:227-232 | the trailing attempt is archived before progress is written; a crash leaves the old progress file |
| MatrixRun.MatrixDriver.StartFresh | benchmarks/run_working_set_matrix.py:278-292 | a fresh start is refused if progress or any artifact exists, and otherwise writes empty progress |
| MatrixRun.MatrixDriver.RemainingArtifactsAbsent | benchmarks/run_working_set_matrix.py:294-304 | the check before the loop is true exactly if no file of a remaining cell exists |
| MatrixRun.MatrixDriver.RunChild | benchmarks/run_working_set_matrix.py:338-347 | the log is created exclusively; a child only touches its own cell |
| MatrixRun.MatrixDriver.RunCell | benchmarks/run_working_set_matrix.py:306-372 | one cell: running record, child, result; with a crash possible before each durable effect no completed record and no other file changes |
| MatrixRun.MatrixDriver.RecordResult | benchmarks/run_working_set_matrix.py:348-372 | the record ends complete with the digest of its file, or failed, or still running after a crash |
| MatrixRun.MatrixDriver.RunRemaining | benchmarks/run_working_set_matrix.py:306-376 | the run loop finishes only with status `complete` on disk |
| MatrixRun.MatrixDriver.RunMatrix | benchmarks/run_working_set_matrix.py:235-377 | a whole invocation: refused exactly as specified and then without effect, else it keeps every file and every completed record |
| MatrixRun.MatrixDriver.Campaign | benchmarks/run_working_set_matrix.py:235-377 | over any sequence of fresh starts, crashes and resumes every file that was there at one moment, also one that was produced on the way, is at every later moment the same file at exactly one path; no archive or artifact collision occurs, and once finished every cell is complete |
| ReplicaBarrier.StepKeepsInv | benchmarks/bench_vision_replicas.py:126-177 | every step of parent, readers and replicas, including a death, keeps the barrier invariant, for any number of replicas and phases |
| ReplicaBarrier.RunKeepsInv | benchmarks/bench_vision_replicas.py:126-177 | the invariant holds after every interleaving |
| ReplicaBarrier.ReadinessIsExpected | benchmarks/bench_vision_replicas.py:152-171 | a READY event that the parent takes is always for the current phase and from a replica not yet ready, also when a fast replica queued it early |
| ReplicaBarrier.PhasesNeverOverlap | benchmarks/bench_vision_parallel.py:402-419 | in every interleaving, even when replicas die, no replica is in a phase that some replica was not ready for, so no two run different phases at once |
| ReplicaBarrier.SomeStepEnabled | benchmarks/bench_vision_replicas.py:146-177 | no deadlock: until the run is over some ordinary step is possible |
| ReplicaBarrier.NormalStepUndisturbed | benchmarks/bench_vision_replicas.py:152-177 | without deaths, reader errors and timeouts the parent never raises, step by step |
| ReplicaBarrier.NormalRunUndisturbed | benchmarks/bench_vision_replicas.py:152-177 | the same over whole runs |
| ReplicaBarrier.StepDecreases | benchmarks/bench_vision_replicas.py:146-177 | a natural-number measure goes down with every step |
| ReplicaBarrier.RunIsBounded | benchmarks/bench_vision_replicas.py:320-332 | every run has at most as many steps as the measure of its first state |
| ReplicaBarrier.BarrierTerminates | benchmarks/bench_vision_replicas.py:320-332 | runs are bounded by an explicit formula, and a run without failures that cannot go on has finished every phase in every replica |
| QualityStage.Stage.FirstComesEarlier | benchmarks/bench_working_set_quality.py:554-570 | the first question of a group comes before its other questions |
| QualityStage.CompletedLookup | benchmarks/bench_working_set_quality.py:1009 | looking up a finished sample by id finds its own record |
| QualityStage.SelectionLookup | benchmarks/bench_working_set_quality.py:1010 | looking up a selection by id finds the dense selection of that sample, exactly for samples that need one |
| QualityStage.QualityRun.constructor | benchmarks/bench_working_set_quality.py:912-940 | a new artifact has no samples and no selections |
| QualityStage.QualityRun.Generate | benchmarks/bench_working_set_quality.py:253-294 | a request hits exactly if its group is cached, and leaves its retained decision in the cache |
| QualityStage.QualityRun.ValidateSelections | benchmarks/bench_working_set_quality.py:646-670 | stored selections are accepted exactly if they are a prefix of the expected ones and unlocked |
| QualityStage.QualityRun.SelectionPhase | benchmarks/bench_working_set_quality.py:684-818 | from any stored prefix the phase ends with the selections of an uninterrupted run, or crashed without losing one |
| QualityStage.QualityRun.RunSample | benchmarks/bench_working_set_quality.py:297-427 | a sample whose surroundings are as in the uninterrupted run yields the record and RNG state of that run |
| QualityStage.QualityRun.RestoreFirstQuestionPrefix | benchmarks/bench_working_set_quality.py:554-628 | rebuilding the prefix of a group's first question never fails and gives the retention signature of the uninterrupted run |
| QualityStage.QualityRun.ReplayScores | benchmarks/bench_working_set_quality.py:990-1004 | replaying the stored predictions agrees with every stored score and rebuilds the scoring RNG state |
| QualityStage.QualityRun.IndexSamples | benchmarks/bench_working_set_quality.py:1009 | the dictionary of completed samples is rebuilt as it was |
| QualityStage.QualityRun.LookupOf | benchmarks/bench_working_set_quality.py:1066 | the selection handed to the restore is the one recorded for the first question |
| QualityStage.QualityRun.PreparePrefix | benchmarks/bench_working_set_quality.py:1044-1075 | before every sample after a group's first the cache holds that group's first-question prefix and `first_decisions` its signature; before any other sample the cache is empty; from any resume point |
| QualityStage.QualityRun.LockedSelectionOf | benchmarks/bench_working_set_quality.py:1077-1093 | a required selection is never missing |
| QualityStage.QualityRun.RunNext | benchmarks/bench_working_set_quality.py:1044-1113 | one iteration from any resume point yields the record, RNG state and dictionaries of the uninterrupted run |
| QualityStage.QualityRun.NoteSample | benchmarks/bench_working_set_quality.py:1107-1113 | the dictionaries after a sample are those of the uninterrupted run |
| QualityStage.QualityRun.WriteSample | benchmarks/bench_working_set_quality.py:1114-1121 | the artifact gains exactly this sample, or the process died before the write |
| QualityStage.QualityRun.RunRemaining | benchmarks/bench_working_set_quality.py:1044-1121 | the replay loop completes the stage or crashes with a valid prefix; it never raises |
| QualityStage.QualityRun.ReplayPhase | benchmarks/bench_working_set_quality.py:990-1121 | the same including the rebuild of RNG state and dictionaries |
| QualityStage.QualityRun.Session | benchmarks/bench_working_set_quality.py:821-1121 | a phase is refused exactly if it does not fit the stage or the replay lacks selections; otherwise one invocation never raises and never loses a stored sample or selection |
| QualityStage.QualityRun.Campaign | benchmarks/bench_working_set_quality.py:886-1121 | any sequence of crashes and resumes that completes ends with the sample list of one uninterrupted run, scores included |
| SseClient.FramesSpellStream | benchmarks/bench_serving_preprocessing.py:83-84 | frames and leftover joined by the delimiter spell the stream, and no frame contains a delimiter |
| SseClient.UnframeFrames | benchmarks/bench_serving_preprocessing.py:83-84 | framing inverts joining: delimiter-free frames come back exactly |
| SseClient.DataLineRead | benchmarks/bench_serving_preprocessing.py:85-87 | a `data: ` line contributes its payload line |
| SseClient.DataOfEncoded | benchmarks/bench_serving_preprocessing.py:85-87 | the data of an encoded payload is the payload, line by line |
| SseClient.DrainParses | benchmarks/bench_serving_preprocessing.py:83-105 | draining the buffer sees exactly the frames of the buffer and leaves exactly its leftover |
| SseClient.FeedIsParse | benchmarks/bench_serving_preprocessing.py:79-108 | feeding a stream in chunks gives events, tokens and leftover of parsing it at once |
| SseClient.ChunkInvariance | benchmarks/bench_serving_preprocessing.py:79-108 | two splits of one stream into chunks, also inside the delimiter, give the same frames, tokens and leftover |
| SseClient.Client.constructor | benchmarks/bench_serving_preprocessing.py:76-78 | a request starts with an empty row and an empty buffer |
| SseClient.Client.Receive | benchmarks/bench_serving_preprocessing.py:80-108 | one chunk is appended and drained |
| SseClient.Client.Request | benchmarks/bench_serving_preprocessing.py:76-110 | the whole loop and the check after it: a stream without `done` or with fewer than two tokens is an error |
| SseClient.FeedKeepsArrivals | benchmarks/bench_serving_preprocessing.py:96-98 | token and arrival lists stay equally long and arrivals never go backwards, from any intermediate state |
| SseClient.ArrivalsOfStream | benchmarks/bench_serving_preprocessing.py:96-98 | the same for a whole request under a clock that does not go back |
| SseClient.ItlTelescopes | benchmarks/bench_serving_preprocessing.py:111-112 | the inter-token latencies sum to last minus first arrival |
| SseClient.TimingsOfArrivals | benchmarks/bench_serving_preprocessing.py:111-116 | the mean inter-token latency is that span over the number of gaps, and not negative |
| Intervals.CoveredIff | benchmarks/analyze_nsys.py:292-306 | an instant is covered exactly if some half-open interval contains it |
| Intervals.SameMembersSameCover | benchmarks/analyze_nsys.py:292-306 | the union does not depend on order or duplicates |
| Intervals.Sweep | benchmarks/analyze_nsys.py:297-306 | the sweep over sorted intervals returns the number of covered instants, less what isolated inverted intervals subtract |
| Intervals.IntervalUnion | benchmarks/analyze_nsys.py:292-306 | the analyzer's union is exactly the number of covered instants, for all inputs |
| Intervals.UnionDuration | artifacts/vision_parallel_20260908/export_trace.py:25-37 | taken by itself, the exporter's union is the number of covered instants minus the exact deficit of isolated inverted intervals |
| Intervals.UnionsAgreeIff | artifacts/shared_preprocessing_20260908/analyze.py:17-28 | the unfiltered and the filtered union of a list agree exactly if no inverted interval stays isolated in the sweep |
| Intervals.InvertedExample | artifacts/vision_parallel_20260908/export_trace.py:25-37 | the function alone, on one inverted interval, comes out negative |
| Intervals.OverlapIff | artifacts/vision_parallel_20260908/export_trace.py:20-22 | the overlap exists exactly if interval and phase share an instant, and then covers what they share |
| Intervals.CollectNext | artifacts/vision_parallel_20260908/export_trace.py:170-177 | a collected overlap keeps the lists of all devices proper and covering what their rows cover inside the phase |
| Intervals.DeviceUnions | artifacts/vision_parallel_20260908/export_trace.py:170-228 | for all kernel rows, inverted ones included, the exporter reports for every device the measure of its rows inside the phase, as the analyzer's clipped union does, and only devices that are busy in it |
| Intervals.ClipCovers | benchmarks/analyze_nsys.py:309-321 | clipping keeps exactly the covered instants inside the window |
| Intervals.ClippedIntervalUnion | benchmarks/analyze_nsys.py:309-321 | the clipped union is the measure of the union inside the window |
| Intervals.GpuTimeline | benchmarks/analyze_nsys.py:481-510 | the timeline summary is computed as specified from minima, maxima and the two unions |
| Intervals.BusyParts | benchmarks/analyze_nsys.py:481-510 | overlap <= busy <= overlap + lead-in before CPU start + tail after CPU end, and busy <= span |
| Intervals.OutsideWindow | benchmarks/analyze_nsys.py:481-510 | instants outside the window are at most the lead-in and the tail |
| ActivityIndex.BisectLeft | benchmarks/analyze_nsys.py:242 | how many rows start before the window |
| ActivityIndex.BisectRight | benchmarks/analyze_nsys.py:243 | how many rows start no later than its end |
| ActivityIndex.WithinRangeIsScan | benchmarks/analyze_nsys.py:235-244 | the window found by bisection equals filtering all rows, in order, also for inverted windows |
| ActivityIndex.GroupByCorrelation | benchmarks/analyze_nsys.py:185-194 | one pass groups exactly the rows of every id, in order, and leaves out rows without id |
| ActivityIndex.RowsForCorrelations | benchmarks/analyze_nsys.py:259-267 | the lookup concatenates the groups of the ids |
| ActivityIndex.LookupIsScan | benchmarks/analyze_nsys.py:513-526 | looking up different ids finds every matching row exactly once, with the total time of the scan |
| ActivityIndex.CategoryTotals | benchmarks/analyze_nsys.py:535-544 | the loop yields count and time of every category, and a category for every kernel |
| ActivityIndex.CategoriesAddUp | benchmarks/analyze_nsys.py:579-609 | over any listing of categories that covers the kernels, counts and times add up to those of all kernels |
| ActivityIndex.TotalsAddUp | benchmarks/analyze_nsys.py:535-544 | the maps that the loop returns sum over their own keys, in any order, to number and total time of the kernels |
| ActivityIndex.SameRowsSameTotals | benchmarks/analyze_nsys.py:535-544 | totals do not depend on the order of rows |
| ActivityIndex.TargetObservation | benchmarks/analyze_nsys.py:513-576 | a target range reports number, time and categories of exactly the kernels whose id occurs among its runtime calls, and the categories add up |
| PagedGather.FlattenView | benchmarks/bench_paged_decode.py:239-240 | viewing rows as pages and flattening them is the identity |
| PagedGather.PageOfSequence | benchmarks/bench_paged_decode.py:232-250 | page j of sequence b in the reinterpreted batch is page j of that padded sequence |
| PagedGather.Gather | benchmarks/bench_paged_decode.py:153-173 | the take-min loop succeeds exactly if the context is not empty and the table names enough cache pages, and then equals the flatten-then-truncate gather |
| PagedGather.GatherPacked | benchmarks/bench_paged_decode.py:230-256 | packing a batch and gathering through its block table returns every dense sequence, for every page size |
| PagedGather.LookupNext | artifacts/runtime_repairs_20260908/check_flashinfer.py:16-18 | one more page extends the flattened pages by that page |
| Arrivals.PeakIsReached | benchmarks/bench_online_vllm.py:258-261 | the peak bounds the number in flight at every moment and is reached |
| Arrivals.SubmitDue | benchmarks/bench_online_vllm.py:243-257 | the inner loop submits the due requests in index order, none before its offset, and stops at the first that is not due |
| Arrivals.Observe | benchmarks/bench_online_vllm.py:264-271 | outputs set the first token once and the end when finished, and never raise the peak |
| Arrivals.StepEngine | benchmarks/bench_online_vllm.py:262-272 | an engine step is noted at a time after it |
| Arrivals.WaitFor | benchmarks/bench_online_vllm.py:273-276 | sleeping reaches the offset |
| Arrivals.RunArrivals | benchmarks/bench_online_vllm.py:232-327 | for every engine and clock keeping their contract the loop ends with every request submitted exactly once, in order, not before its offset, all finished, 0 <= submit delay <= TTFT <= latency, and the true peak in flight |
| CacheWorkload.RepeatsOfPrefix | benchmarks/multimodal_cache_workload.py:55-65 | the first i media requests contain exactly floor(i * r / n) repeats |
| CacheWorkload.RepeatsInAll | benchmarks/multimodal_cache_workload.py:55-65 | all of them contain exactly r |
| CacheWorkload.RepeatsOfWindow | benchmarks/multimodal_cache_workload.py:55-65 | every window holds the floor or the ceiling of its share |
| CacheWorkload.BuildWorkload | benchmarks/multimodal_cache_workload.py:83-111 | the builder gives every payload its role; text-only requests stay and do not advance the index |
| CacheWorkload.RepeatsBuilt | benchmarks/multimodal_cache_workload.py:83-111 | among the first payloads of a built workload the repeats are the exact share of the media requests |
| CacheWorkload.VariantsDiffer | benchmarks/multimodal_cache_workload.py:94 | no two unique requests get the same variant |
| CacheMarker.NumberOfBits | benchmarks/multimodal_cache_workload.py:24-30 | 64 bits determine the variant |
| CacheMarker.Rectangle | benchmarks/multimodal_cache_workload.py:23 | a clipped rectangle changes exactly its pixels |
| CacheMarker.Mark | benchmarks/multimodal_cache_workload.py:22-30 | drawing in place yields exactly the specified pixels, for images of any size |
| CacheMarker.DecodesToVariant | benchmarks/multimodal_cache_workload.py:20-30 | on images of at least 31 by 31 pixels the marker decodes to its variant |
| CacheMarker.UniqueMediaDiffer | benchmarks/multimodal_cache_workload.py:83-111 | two unique requests of a built workload never show the same picture, even if made from one image, of at least 31 by 31 pixels |
| CacheMarker.VariantsAlikeIff | benchmarks/multimodal_cache_workload.py:12-30 | two variants of one image look alike exactly if they agree in every bit that fits the image |
| CacheMarker.TinyImagesCollide | benchmarks/multimodal_cache_workload.py:12-30 | on a 2 by 2 image all variants look alike |
| InterleavedContent.Find | benchmarks/working_set_workload.py:34 | the leftmost occurrence of the marker |
| InterleavedContent.JoinSplit | benchmarks/working_set_workload.py:34 | joining the parts with the marker gives back the prompt |
| InterleavedContent.PartsAreFree | benchmarks/working_set_workload.py:34 | no part contains the marker, also one that overlaps itself |
| InterleavedContent.Build | benchmarks/working_set_workload.py:20-45 | the exact error cases, and for accepted input blocks that print to the prompt, hold the images in order, and are proper |
| InterleavedContent.PrintInvertsParse | benchmarks/working_set_workload.py:38-45 | printing the blocks is a left inverse of parsing and keeps the images in order |
| InterleavedContent.ParseIsProper | benchmarks/working_set_workload.py:38-45 | no text block is empty, contains the marker or follows another text block |
| VisionPartition.MergedAligned | benchmarks/diagnose_vision_partition.py:155-171 | with divisible patch counts every merged row id is that of the patches merged into it |
| VisionPartition.RowsCovered | benchmarks/diagnose_vision_partition.py:150-160 | dealing every image to one place makes the row ids cover every row exactly once |
| VisionPartition.MergedRows | benchmarks/diagnose_vision_partition.py:155-160 | quotients of patch offsets bound exactly the merged rows of an image |
| VisionPartition.BatchBounds | benchmarks/diagnose_vision_partition.py:166-171 | the bounds of an image-aligned microbatch cut out its patch rows and, divided by the merge area, its merged rows |
| VisionPartition.SumPermutes | benchmarks/diagnose_vision_partition.py:192-203 | accumulated totals and maxima do not depend on the order of rows |
| VisionPartition.SumConcat | benchmarks/diagnose_vision_partition.py:192-203 | totals of pieces add up to the totals of the whole |
| VisionPartition.RunShard | benchmarks/diagnose_vision_partition.py:143-209 | one shard adds exactly the statistics of the rows of its images |
| VisionPartition.RunCase | benchmarks/diagnose_vision_partition.py:132-215 | for any shards and any image-aligned microbatches the statistics equal those of the reassembled tensor |
| WorkingSetSummary.CheckSnapshots | benchmarks/summarize_working_set.py:156-196 | population snapshots are accepted exactly if each adds one new completed request to the one before |
| WorkingSetSummary.SnapshotsAreAChain | benchmarks/summarize_working_set.py:164-185 | accepted snapshots are a strictly growing chain of prefixes with different request ids |
| WorkingSetSummary.SummarizeRecords | benchmarks/summarize_working_set.py:477-566 | records are accepted exactly if they are compatible, and then the summary lists them in key order with the agreed identity |
| WorkingSetSummary.PermutationInvariant | benchmarks/summarize_working_set.py:477-566 | permuting the records changes neither acceptance nor the summary |
| WorkingSetSummary.CompleteIsCanonical | benchmarks/summarize_working_set.py:24-37 | an accepted summary without partial results has exactly one cell per required combination, in the canonical order |
| WorkingSetSummary.SortOk | benchmarks/summarize_working_set.py:541-547 | sorting by different keys orders exactly the given cells |
| SglangBudget.RoundingPassesCheck | benchmarks/bench_online_sglang.py:505-512 | rounding down to tokens and then to pages always leaves less than a page of the budget unused; it is refused exactly below one page |
| SglangBudget.Pages | benchmarks/bench_online_sglang.py:405-410 | the bytes of the rounded capacity and of one page more bracket the budget |
| BlockPool.UnheldAre | prism_infer/engine/block_pool.py:91-94 | free plus cached pages are exactly the pages nobody holds |
| BlockPool.GpuBlockPool.constructor | prism_infer/engine/block_pool.py:70-84 | all pages start free |
| BlockPool.GpuBlockPool.FreeCount | prism_infer/engine/block_pool.py:91-94 | the free count is the number of unheld pages |
| BlockPool.GpuBlockPool.Allocate | prism_infer/engine/block_pool.py:126-136 | a free page becomes used by one owner |
| BlockPool.GpuBlockPool.PopFree | prism_infer/engine/block_pool.py:139-142 | stale queue entries are skipped; a free page is found if there is one |
| BlockPool.GpuBlockPool.EvictOldestCached | prism_infer/engine/block_pool.py:96-111 | the page cached longest is freed and its hash forgotten |
| BlockPool.GpuBlockPool.AllocateFree | prism_infer/engine/block_pool.py:138-147 | it fails exactly if every page is held, prefers free to cached pages, and no hash leads to the page it returns |
| BlockPool.GpuBlockPool.AllocateMany | prism_infer/engine/block_pool.py:149-165 | all or nothing: exactly if enough pages are unheld, that many different ones are handed out |
| BlockPool.GpuBlockPool.Retain | prism_infer/engine/block_pool.py:167-181 | a used page gets one more owner; a cached one is revived |
| BlockPool.GpuBlockPool.ReleaseReference | prism_infer/engine/block_pool.py:196-224 | the last release caches a hashed page and frees any other |
| BlockPool.GpuBlockPool.RegisterHash | prism_infer/engine/block_pool.py:226-239 | the hash leads to this page from now on |
| BlockPool.GpuBlockPool.ClearHash | prism_infer/engine/block_pool.py:241-246 | the page loses its hash and its index entry |
| BlockPool.GpuBlockPool.Lookup | prism_infer/engine/block_pool.py:248-268 | a hit is a used page that carries the hash |
| KvState.ReadsOwnHistory | prism_infer/engine/block_manager.py:388-442 | in the invariant, every computed position of a request reads the KV row of its own history |
| KvState.HitHoldsHistory | prism_infer/engine/block_pool.py:248-268 | a page found by hash holds the KV rows of the asked history |
| KvState.WritesDisturbNobody | prism_infer/engine/block_manager.py:1029-1036 | the page that holds the position behind the computed ones is led to by no hash and held by nobody else, except the request's own retained prefix, which ends before the row; where a decode step really writes is in KvSlots |
| KvRuns.RunKeepsInv | prism_infer/engine/block_manager.py:51-1246 | the KV invariant, and that the CPU holds what its requests had computed, hold in every state of every interleaving of page-level steps and transfers from an empty cache, up to the first step that publishes a page with a gap or writes into a published page |
| KvRuns.HarmBreaks | prism_infer/engine/scheduler.py:738-750 | the two harmful steps do harm: a row that strays into a published page always breaks the invariant, and publishing with a gap breaks it for some contents of the rows that were not computed |
| KvRuns.RunsReadOwnHistory | prism_infer/engine/block_manager.py:51-1246 | in every such state attention over computed positions reads the request's own history, whatever was shared, copied, evicted or swapped; what comes back from the CPU or a copied tail is whatever is stored there |
| KvRuns.RunsSaveOwnHistory | prism_infer/engine/block_manager.py:1068-1106 | in every such state the swap slots of a request hold the rows of its own history |
| KvRuns.RunsCountReferences | prism_infer/engine/block_pool.py:167-210 | in every such state the reference count of a page is the number of its holders: tables, retained prefixes and tail clones |
| KvRuns.RetainingCommutesWithPublishing | prism_infer/engine/executor.py:200-213 | retaining a page before publishing it, as the executor does, comes to the same as after |
| KvRuns.EvictingCommutesWithPublishing | prism_infer/engine/executor.py:200-213 | so does giving up a page of a retained prefix |
| KvRuns.AddSeqKeepsInv | prism_infer/engine/scheduler.py:215-243 | a request arrives without pages |
| KvRuns.RemoveSeqKeepsInv | prism_infer/engine/scheduler.py:788-807 | a request leaves once its pages are released |
| KvSteps.AppendFreshKeepsInv | prism_infer/engine/block_manager.py:417-418 | taking an unheld page keeps the invariant |
| KvSteps.AppendHitKeepsInv | prism_infer/engine/block_manager.py:419-422 | sharing a hit page keeps the invariant |
| KvSteps.PopPageKeepsInv | prism_infer/engine/block_manager.py:777-778 | releasing the last page keeps the invariant |
| KvSteps.WriteRowKeepsInv | prism_infer/engine/block_manager.py:1038-1060 | computing the next row keeps the invariant |
| KvSteps.WriteAheadKeepsInv | prism_infer/engine/input_preparation.py:655-657 | a row written behind the computed ones of an unpublished page harms nobody else and counts as nothing computed |
| KvSteps.WriteOverKeepsInv | prism_infer/engine/input_preparation.py:655-657 | a row written over a computed one of an unpublished page that nobody else holds harms the request alone: its history is there only up to that row |
| KvSteps.StrayWriteBreaks | prism_infer/engine/input_preparation.py:655-657 | a row that is longer than the one that belongs there, written to a published page, leaves a hash that does not tell what the page holds |
| KvPublishSteps.PublishKeepsInv | prism_infer/engine/block_manager.py:1051-1060 | publishing a complete page under its history keeps the invariant |
| KvPublishSteps.ChainedIsNext | prism_infer/engine/block_manager.py:1051-1060 | on a computed page, continuing the hash of the page before it gives the hash of the whole history |
| KvPublishSteps.PublishingIsSoundIff | prism_infer/engine/block_manager.py:1038-1060 | the hash of a published page tells what the page holds, whatever is in rows that were never computed, exactly if all its rows were computed |
| KvPublishSteps.LoadPageKeepsInv | prism_infer/engine/block_manager.py:587-598 | filling an own page from a copy of the history keeps the invariant |
| KvPublishSteps.ReplacePageKeepsInv | prism_infer/engine/block_manager.py:200-217 | replacing an unpublished page by a copy keeps the invariant |
| KvPublishSteps.SnapKeepsInv | prism_infer/engine/block_manager.py:426-441 | moving a hit back to an image boundary keeps the invariant, with the cut pages waiting to be made private |
| KvPublishSteps.UnhashKeepsInv | prism_infer/engine/block_manager.py:206-211 | a waiting page held alone only loses its hash |
| KvPublishSteps.AdoptCloneKeepsInv | prism_infer/engine/block_manager.py:578-586 | reusing an idle tail clone keeps the invariant |
| KvPublishSteps.AppendTokenKeepsInv | prism_infer/engine/scheduler.py:752 | a sampled token joins the history |
| KvPublishSteps.SoleOwner | prism_infer/engine/block_manager.py:208-211 | a page with one reference is held by this request and at one place of its table only |
| KvEntrySteps.NewEntryKeepsInv | prism_infer/engine/block_manager.py:860-878 | admitting a prefix keeps the invariant |
| KvEntrySteps.TakePageKeepsInv | prism_infer/engine/block_manager.py:857-859 | retaining a page of a computed prefix keeps the invariant, the unfinished tail page included |
| KvEntrySteps.TakeCloneKeepsInv | prism_infer/engine/block_manager.py:592-598 | keeping the copied tail as a clone keeps the invariant |
| KvEntrySteps.DropPageKeepsInv | prism_infer/engine/block_manager.py:338-343 | giving up a page of a prefix keeps the invariant |
| KvEntrySteps.DropCloneKeepsInv | prism_infer/engine/block_manager.py:345-363 | giving up a tail clone keeps the invariant |
| KvEntrySteps.RemoveEntryKeepsInv | prism_infer/engine/block_manager.py:338-343 | a prefix without pages can be removed |
| KvCapacity.CapacityIsAvailable | prism_infer/engine/block_manager.py:309-324 | free plus reclaimable pages, counted as admission counts them, are exactly the pages eviction can produce |
| KvCapacity.ShrunkKeepsAvailable | prism_infer/engine/block_manager.py:338-363 | evictions neither add to nor take from that number |
| KvCapacity.NothingToEvict | prism_infer/engine/block_manager.py:378-386 | when nothing may be evicted any more, everything available is free |
| KvAdmission.Chain | prism_infer/engine/block_manager.py:171-184 | all pages before the end of the walk are in the index, and unless the limit is reached the next one is not |
| KvAdmission.SnapIsOutside | prism_infer/engine/block_manager.py:187-198 | the snapped position is inside no image, and no later one up to the hit is outside all |
| KvAdmission.WalkedPastPromptIff | prism_infer/engine/block_manager.py:155-184 | the walk of an allocation goes past the prompt exactly if every page up to the one that ends it is in the index; otherwise it finds what the probe found |
| KvAdmission.ProbeIsExactIff | prism_infer/engine/block_manager.py:276-290 | the read-only probe reports exactly the rows that the allocation reuses, unless the request's own output was published past its prompt; with a retained prefix, unless the walk finds more than the prefix |
| KvAdmission.NothingLeftIff | prism_infer/engine/scheduler.py:375-392 | the reused rows cover the prompt exactly if every page up to the one that ends the prompt is in the index and no prefix is retained |
| KvAdmission.FreshRequestsFit | prism_infer/engine/scheduler.py:375-392 | a request without output always has something left; without a retained prefix it is probed exactly, with one exactly if the walk finds no more than the prefix |
| KvAdmission.ProbeMisses | prism_infer/engine/block_manager.py:155-184 | pages of two rows, one prompt token and the published page of prompt and first output: the probe says 0, the allocation reuses 2 |
| KvAdmission.PrefixPagesFit | prism_infer/engine/block_manager.py:292-307 | the pages of its prompt that a prefix hit requires are never negative |
| KvBudget.AdmissionRaisesIff | prism_infer/engine/scheduler.py:364-406 | an admissible request is refused with an exception exactly if, without a retained prefix, its own output was published past its prompt, or, with one, prompts are not chunked and the rest behind the walk fits the batch but the rest behind the prefix does not; the second exception of admission is never raised |
| KvBudget.PrefixAdmission | prism_infer/engine/scheduler.py:375-406 | the same with a retained prefix, for any number of rows that count as computed already |
| KvBudget.WalkAdmission | prism_infer/engine/scheduler.py:375-406 | the same without one |
| KvBudget.FreshAdmission | prism_infer/engine/scheduler.py:364-392 | a request that has produced nothing meets the exception only if its prefix is retained, prompts are not chunked and the walk found more than the prefix |
| KvBudget.FreshRequestRaises | prism_infer/engine/scheduler.py:385-392 | a prompt of five tokens whose first is an image, asked for a second time: the probe finds four rows, the allocation reuses one, and a batch with room for three tokens raises |
| KvBudget.ChunkBehindImages | prism_infer/engine/scheduler_policy.py:133-173 | behind its images a prompt with something left gets an empty chunk exactly if it has to be computed at once and does not fit |
| KvBudget.NoPatchesBehind | prism_infer/engine/sequence.py:301-384 | a range behind the last image takes no patch rows |
| KvBudget.TryAdmit | prism_infer/engine/scheduler.py:364-406 | the steps of an attempt, from the probe to the second sizing, end as specified; nothing changes unless the request is admissible, and after an exception its pages are given up |
| KvBudget.NeverAgain | prism_infer/engine/block_manager.py:773-788 | a request whose whole prompt went on to count as computed after the exception is never admitted again |
| KvBudget.SkippedRow | prism_infer/engine/scheduler.py:372-378 | one whose prefix went on to count as computed, and is gone by the next attempt, is admitted with a first chunk that starts behind rows nobody computed |
| KvManager.BlockManager.constructor | prism_infer/engine/block_manager.py:54-90 | an empty cache satisfies the invariant |
| KvManager.BlockManager.Evict | prism_infer/engine/block_manager.py:338-343 | exactly this prefix goes, with its references and no others |
| KvManager.BlockManager.DropIdleClone | prism_infer/engine/block_manager.py:345-363 | one idle tail clone goes, or nothing changes |
| KvManager.BlockManager.EnsureFree | prism_infer/engine/block_manager.py:365-386 | eviction succeeds exactly if free pages and pages of unprotected prefixes suffice; requests, hashes and rows stay; with enough free pages nothing happens |
| KvManager.BlockManager.AllocateTable | prism_infer/engine/block_manager.py:388-425 | hits up to the first miss, then fresh pages; it cannot run out of pages, also counting those for later private copies |
| KvManager.BlockManager.PrivatizePage | prism_infer/engine/block_manager.py:200-217 | the next waiting page is private afterwards |
| KvManager.BlockManager.PrivatizeAll | prism_infer/engine/block_manager.py:432-440 | all waiting pages become private without running out of pages |
| KvManager.BlockManager.MakePrivate | prism_infer/engine/block_manager.py:426-442 | the hit ends at the image boundary and the pages computed again are private |
| KvManager.BlockManager.AllocateDense | prism_infer/engine/block_manager.py:388-442 | after the capacity test it never fails; there are pages for all tokens, of which exactly the walked and snapped prefix counts as computed |
| KvManager.BlockManager.MakeRoomForHit | prism_infer/engine/block_manager.py:545-553 | evicting for a hit spares the prefix and its idle clones |
| KvManager.BlockManager.TakeOver | prism_infer/engine/block_manager.py:554-559 | complete pages of the prefix are shared and use up no free page |
| KvManager.BlockManager.TakeTail | prism_infer/engine/block_manager.py:562-598 | the unfinished page is an idle clone or a copy, never the canonical page |
| KvManager.BlockManager.FillTable | prism_infer/engine/block_manager.py:600-604 | fresh pages up to the last token |
| KvManager.BlockManager.AllocateEntryHit | prism_infer/engine/block_manager.py:535-619 | after the capacity test it never fails, the whole prefix is computed, and there are pages for the prompt |
| KvManager.BlockManager.Allocate | prism_infer/engine/block_manager.py:719-771 | it fails exactly when the scheduler's `can_allocate` says so, and then changes nothing; otherwise it reuses exactly the retained prefix or the walked one, and has pages for the prompt or all tokens |
| KvManager.BlockManager.ComputeRows | prism_infer/engine/scheduler.py:700-752 | the rows of a range are computed, each on the page and row of its position |
| KvManager.BlockManager.PublishComputed | prism_infer/engine/block_manager.py:1038-1060 | exactly the pages completed by the range are published |
| KvManager.BlockManager.Prefill | prism_infer/engine/scheduler.py:738-742 | a chunk computes its rows and publishes its complete pages |
| KvManager.BlockManager.StorePrefix | prism_infer/engine/block_manager.py:790-880 | it raises exactly for a prefix request without a hit that has output already; a stored prefix is new and holds the first pages of its request's table |
| KvManager.BlockManager.ShrinkCache | prism_infer/engine/block_manager.py:838-854 | making room for it spares all requests |
| KvManager.BlockManager.MakeRoomForCopy | prism_infer/engine/block_manager.py:1219-1240 | room for a copy is found exactly if the exact condition of copy on write holds |
| KvManager.BlockManager.CopyOnWrite | prism_infer/engine/block_manager.py:1206-1246 | for every request it succeeds exactly if a page can be had without its own prefix, or giving up that prefix leaves the page to it or frees one; then the last page is its own, otherwise the exception is raised and only prefixes went |
| KvManager.BlockManager.MayAppend | prism_infer/engine/block_manager.py:1029-1036 | for every request it fails exactly if a page is needed and none is available |
| KvManager.BlockManager.PlanDecode | prism_infer/engine/scheduler.py:540-556 | for every request it succeeds exactly if what the step needs can be had, and then the last page is its own and there is a new one if the row starts a page; `can_append` never promises more to a request with enough pages; a shared published page is copied if a page is free or another request holds it |
| KvManager.BlockManager.Release | prism_infer/engine/block_manager.py:773-788 | exactly the references of the request are gone |
| KvManager.BlockManager.SwapOut | prism_infer/engine/block_manager.py:1062-1106 | it succeeds exactly if there is a slot for every page; what goes to the CPU is the computed history |
| KvManager.BlockManager.SwapIn | prism_infer/engine/block_manager.py:1159-1204 | it succeeds exactly if enough pages are available, and the request is as it was: rows, progress and published pages |
| KvManager.BlockManager.RestorePages | prism_infer/engine/block_manager.py:1159-1204 | page by page the rows come back, and published pages are published again |
| KvManager.BlockManager.Arrive | prism_infer/engine/scheduler.py:215-243 | a request arrives without pages |
| KvManager.BlockManager.AppendSampled | prism_infer/engine/scheduler.py:752 | a sampled token joins the history |
| KvManager.BlockManager.DecodeStep | prism_infer/engine/scheduler.py:509-556 | for every request that goes on decoding, also with missing rows or too few pages: exactly when the plan raises, when publishing asks for a page behind the table, and when a page with a gap is published; a row strays into a published page only under a condition on pages, length and holders, and always if the last page is the request's own; otherwise the token joins the history and the cache stays in order; no other request changes |
| KvManager.BlockManager.ComputeNewest | prism_infer/engine/scheduler.py:738-750 | the newest row is computed and the page that it completes published |
| KvManager.BlockManager.WriteNewest | prism_infer/engine/scheduler.py:738-750 | with a page for every token, the newest row is written behind missing ones, and the cache stays in order unless that completes a page |
| KvManager.BlockManager.WriteToSlot | prism_infer/engine/input_preparation.py:655-657 | the newest row goes to the last page: into an unpublished one without harm, where it may overwrite a computed row of the request; into a published one so that its hash lies |
| KvManager.BlockManager.WriteShort | prism_infer/engine/scheduler.py:738-750 | with too few pages the step raises exactly if its length completes a page, and strays exactly if the last page is published |
| KvManager.BlockManager.DecodeShort | prism_infer/engine/scheduler.py:509-556 | plan and step of a request with too few pages |
| KvManager.BlockManager.DecodeWhole | prism_infer/engine/scheduler.py:509-556 | plan and step of a request with enough pages: ready requests stay ready, missing rows stay missing, and a page with a gap is published exactly when its length is reached |
| KvManager.BlockManager.Leave | prism_infer/engine/scheduler.py:788-807 | a request that is finished or cancelled leaves nothing behind, in pages or swap slots |
| KvDecode.SharedTailIsCached | prism_infer/engine/block_manager.py:1012-1027 | a shared last page belongs to the request's own retained prefix |
| KvDecode.TailAlone | prism_infer/engine/block_manager.py:1229-1240 | without that prefix the request holds its last page alone |
| KvDecode.CrossingPages | prism_infer/engine/block_manager.py:1029-1036 | the page boundary test `length % size == 1` is right for every page size above one |
| KvDecode.OpenTailCanCopy | prism_infer/engine/block_manager.py:1206-1246 | copy on write is always possible for a request whose last page is not published |
| KvDecode.CanAppendSuffices | prism_infer/engine/block_manager.py:1012-1027 | what the scheduler tests suffices for a request with pages for all tokens but the newest |
| KvDecode.LastResort | prism_infer/engine/block_manager.py:1219-1240 | after everything else was evicted in vain, giving up the own prefix helps exactly if no other request holds the page or a page becomes free |
| KvDecode.OthersStillHold | prism_infer/engine/block_manager.py:1206-1246 | evictions do not take a page from another request that holds it |
| KvSlots.SlotIsRightIff | prism_infer/engine/input_preparation.py:655-657 | the slot of a decode step is the place of the newest position exactly if the page table has a page for every position; otherwise it belongs to an earlier one |
| KvSlots.SlotKeepsInvIff | prism_infer/engine/input_preparation.py:655-657 | for every request and every row of its length, writing to the slot keeps the invariant exactly if the last page is not published; if it is, its hash lies afterwards |
| KvSlots.SlotAfterReturnIff | prism_infer/engine/block_manager.py:600-604 | a request that came back through its retained prefix, unless it gets a new page, writes to a wrong place exactly if its output had reached another page, and into a published page exactly if its prompt is aligned |
| KvSlots.StepPages | prism_infer/engine/block_manager.py:1029-1036 | a decode step never makes up for missing pages |
| KvSlots.NothingStops | prism_infer/engine/block_manager.py:1012-1027 | a request that misses no rows has enough pages and gets what the scheduler's test promises |
| KvSwap.SavedPages | prism_infer/engine/block_manager.py:1068-1106 | the saved pages hold the computed history |
| KvSwap.ReloadIsLoad | prism_infer/engine/block_manager.py:1159-1204 | the stored page that comes back is the right one for its place |
| KvSwap.TailCopyIsLoad | prism_infer/engine/block_manager.py:587-598 | the copied tail of a prefix is the history of the request that starts with it |
| KvSwap.SavingTakesSlots | prism_infer/engine/block_manager.py:1062-1066 | saving a request takes one slot for each of its pages |
| KvRecompute.Readmit | prism_infer/engine/scheduler.py:364-406 | the exact outcome of the next attempt to admit a new or sent-back request under the limits of the batch: not now, nothing left to compute, prefix storage raises, or it resumes, with all rows exactly if it had no output, and with too few pages exactly if its prefix was retained and its output had reached another page |
| KvRecompute.FinishPrompt | prism_infer/engine/executor.py:200-213 | prefill to the end of the prompt, retention and first token |
| KvRecompute.Recompute | prism_infer/engine/scheduler.py:714-722 | a decoding request that is sent back never gets all rows back: one of two exceptions, or the rows of its output are missing, each exactly under a condition on tokens, prompt, index, prefixes and batch before |
| KvRecompute.DecodeOn | prism_infer/engine/scheduler.py:509-556 | over any number of decode steps missing rows stay missing, and a request that misses some never gets past its page: there it publishes a page with a gap, or raises, if it did not stray before; complete histories are stopped by the scheduler's test only |
| KvRecompute.NothingLeftExample | prism_infer/engine/scheduler.py:375-392 | an aligned prompt with one token of output: the scheduler raises |
| KvRecompute.MissingRowExample | prism_infer/engine/scheduler.py:714-722 | an unaligned prompt with one token of output: it resumes without the row of that token |
| KvRecompute.StoreRaisesExample | prism_infer/engine/executor.py:200-213 | the same with an image: storing the prefix raises |
| KvRecompute.StrayExample | prism_infer/engine/input_preparation.py:655-657 | an aligned prompt of four tokens that came back with one token of output: the next row goes to position 3 of the published prompt, whatever it is |
| KvRecompute.AppendAllowedInVain | prism_infer/engine/block_manager.py:1012-1027 | a state in the invariant in which a request shares its published last page: `can_append` allows the step and copy on write raises |
| KvServing.Server.DoArrive | prism_infer/engine/scheduler.py:215-243 | a new request waits with exactly its prompt |
| KvServing.Server.DoTakeIn | prism_infer/engine/scheduler.py:364-406 | a waiting request moves to prefill exactly if admission says so, with exactly the reused rows; otherwise, or after an exception, it waits on as it was |
| KvServing.Server.DoChunk | prism_infer/engine/scheduler.py:738-742 | the chunk is computed, nothing else of the request changes |
| KvServing.Server.DoFinish | prism_infer/engine/scheduler.py:738-770 | it decodes with its first token, unless retaining the prefix raises, exactly for a request with output that was not admitted through it |
| KvServing.Server.DoDecode | prism_infer/engine/scheduler.py:509-556 | a step that the scheduler allows appends the token, raises or harms exactly as the block manager says |
| KvServing.Server.DoPreempt | prism_infer/engine/scheduler.py:700-723 | a preempted request is on the CPU with exactly its rows, or, exactly if there is no room, waits without pages |
| KvServing.Server.DoReturn | prism_infer/engine/block_manager.py:1159-1204 | it returns exactly if there is room, with the progress and published pages it had |
| KvServing.Server.DoLeave | prism_infer/engine/scheduler.py:788-807 | it is gone, from pages, CPU and queues |
| KvServing.Server.Do | prism_infer/engine/scheduler.py:676-698 | every operation has exactly its effect, changes nothing about other requests, and keeps cache and requests in order unless it harms somebody |
| KvServing.Server.Serve | prism_infer/engine/scheduler.py:676-807 | any operations on any number of requests in any order, until an exception or harm: a trace of snapshots, each in order and each the effect of its operation |
| KvServing.HonestRun | prism_infer/engine/scheduler.py:700-723 | as long as the CPU has room for every preempted request, no run harms anybody, and the only exception is that of admission with a retained prefix |
| KvServing.HonestEffect | prism_infer/engine/scheduler.py:509-556 | a request that was never sent back harms nobody and meets no other exception |
| KvServing.HonestIsReady | prism_infer/engine/scheduler.py:509-556 | a decoding request that was never sent back has its complete history |
| KvServing.HistoryIsSampled | prism_infer/engine/scheduler.py:752 | through preemption, swapping and refusals the history of a request is its prompt and the tokens sampled for it, in order |
| KvTransfers.InsEffect | prism_infer/engine/model_runner.py:1286-1316 | a list of swap-ins moves every slot to its page and touches nothing else |
| KvTransfers.OutsEffect | prism_infer/engine/model_runner.py:1286-1316 | likewise for swap-outs |
| KvTransfers.OutsPastCopies | prism_infer/engine/executor.py:127-145 | swap-outs may overtake copies that write none of their pages |
| KvTransfers.GroupOuts | prism_infer/engine/executor.py:127-145 | executing phase by phase has the effect of the planning order |
| KvTransfers.CopyFirstBreaks | docs/RUNTIME_REPAIRS_20260908.md:7-16 | copying first corrupts a swapped-out request |
| KvTransfers.OutFirstBreaks | docs/RUNTIME_REPAIRS_20260908.md:7-16 | swapping out first corrupts a swapped-in request |
| KvTransfers.CopyBeforeOutIff | prism_infer/engine/executor.py:127-145 | for all payloads, a copy may go before a swap-out exactly if it does not write the page that is swapped out |
| KvTransfers.OutBeforeInIff | prism_infer/engine/executor.py:127-145 | for all payloads, a swap-out may go before a swap-in exactly if they share neither slot nor page |
| KvTransfers.SwapInOk | prism_infer/engine/scheduler.py:544-560 | planning a swap-in keeps every request's payload under the executor's order |
| KvTransfers.SwapOutOk | prism_infer/engine/scheduler.py:700-713 | so does planning a swap-out after any copies |
| KvTransfers.DropOk | prism_infer/engine/scheduler.py:714-722 | so does sending a request back |
| KvTransfers.CopyLastOk | prism_infer/engine/scheduler.py:588-596 | so does a copy on write |
| KvTransfers.AppendOk | prism_infer/engine/scheduler.py:597 | so does appending a page |
| KvTransfers.Scheduler.Pick | prism_infer/engine/block_pool.py:297-320 | any free pages or slots, all different |
| KvTransfers.Scheduler.PlanSwapIns | prism_infer/engine/scheduler.py:544-560 | swapped requests come back in order while there is room and fewer than the maximum run, those in prefill included |
| KvTransfers.AllBack | prism_infer/engine/scheduler.py:544-560 | whether the queue is stuck after requests came back is decided by the state before: only a single one that takes the last pages and needs one more is |
| KvTransfers.Scheduler.Preempt | prism_infer/engine/scheduler.py:700-723 | a preempted request is swapped out or queued again, never lost |
| KvTransfers.Scheduler.GrowOne | prism_infer/engine/scheduler.py:588-598 | what the next token needs is reserved: a page, or a copy of a last page that another request has |
| KvTransfers.Scheduler.PlanOne | prism_infer/engine/scheduler.py:571-598 | preempting from the back of the queue until a request can grow ends, and it gives itself up exactly if the queue was stuck: no page spare, and none to gain by preempting the others |
| KvTransfers.Scheduler.PlanDecode | prism_infer/engine/scheduler.py:509-613 | a decode plan loses no request and keeps every payload under the executor's order; it schedules nobody exactly under a condition on queues, tables and spare pages before the step |
| KvTransfers.Runner.Transfer | prism_infer/engine/model_runner.py:1193-1200 | the copy loops perform the list in order |
| KvTransfers.Runner.Execute | prism_infer/engine/executor.py:127-145 | the executor performs the three phases |
| KvTransfers.Runner.DecodeStep | prism_infer/engine/executor.py:98-145 | after a decode step every request that still has pages or slots finds its own payload in them, unless nobody can run, by the exact condition on the state before the step |
| KvTransfers.StuckAtEnd | prism_infer/engine/scheduler.py:571-587 | with all others preempted, the first request is out of luck exactly if the queue was stuck at the beginning |
| KvTransfers.TransfersAreLost | prism_infer/engine/scheduler.py:595-599 | one request with the only page needs another: the step swaps it out, raises, and its slot does not hold what its page held |

## Left out

- Compacted (visual-pruned) KV layouts, video requests and requests whose pages cannot be hashed: the block manager is modelled in dense block-level mode with prefix caching on.
- KvManager: requests are values in a map and the cache state is one field, so object identity and aliasing of request objects are not captured; counters and metadata are not modelled.
- KvManager.BlockManager.EnsureFree: does not model the order of eviction by benefit per block; every order is covered.
- KvManager.BlockManager.StorePrefix: does not model the utility comparison and the resident-page limit that decide whether a prefix is worth keeping; any decision is covered.
- KvManager.BlockManager.SwapOut: counts CPU slots but does not model which ones are used; KvTransfers models slots.
- KvManager.BlockManager.DecodeStep: one request at a time; batches are covered by KvRuns, whose runs interleave the page-level steps of all requests in any order. When a published last page is held by retained prefixes only, and no page is free, the order of evictions decides whether a row strays; both are covered. Attention beyond the end of a page table that is too short is not modelled.
- KvServing.Server.Serve: ends at the first exception, because the source leaves its queues and counters half way; after an exception of admission the reused rows go on to count as computed there, which KvBudget.AdmissionOf takes as a parameter.
- KvRecompute.StrayExample: the state is shown to satisfy the invariant; that a run reaches it is not shown. The same holds for AppendAllowedInVain and FreshRequestRaises.
- Prefill plans: their only transfers are prefix copies in planning order, so deferring them changes nothing.
- KvTransfers.Scheduler.PlanDecode: a page outside all tables counts as available, and a last page that only the request's own prefix shares may be copied or not; lengths and reference counts are in KvManager.
- Admission order, SLO and vision-aware scheduling policies and queue limits of the scheduler; of the batch limits, that a range cuts no image is taken for granted.
- Vision and text layers, attention kernels, CUDA graphs, compilation, quantized numerics and tensor parallelism: floating point and foreign code.
- MatrixRun: the child's work, its command line and environment; a child is any change to its own output and log.
- QualityStage.QualityRun.Generate: the engine is deterministic and its prefix cache keeps a group until it is cleared; boundaries, candidate counts and eviction are not modelled.
- QualityStage.QualityRun.ValidateSelections: a sample stands for its id and input identity, and the recorded strategy is not modelled.
- QualityStage: materialization of samples, the prediction scorer and the engine are parameters; `write_json_atomic` and `validate_resume_samples` are assumed contracts.
- ReplicaBarrier: the deadline is a timeout step that may happen at any moment; log files and summaries are not modelled.
- SseClient: `percentile`, HTTP status handling and the network itself.
- Arrivals: wall-clock arrival times handed to the engine, queue times and token rates of the records; request ids are the indices, which the formatted ids are in one-to-one relation with.
- VisionPartition: sums are exact reals, so the order effects of floating point are not captured; relative errors derived from the totals at the end are not modelled.
- WorkingSetSummary: the validation of a single record and the default source names, which do depend on input order; the drawn tables.
- CacheWorkload: the number of repeats is a parameter, because it is rounded from a floating-point rate; suffixes of varied questions.
- Configuration checks, argument parsing, dataset preparation, metadata collection, samplers and plots: they would only add easy members.
