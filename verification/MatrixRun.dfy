/** The repeated-visual-context performance matrix (benchmarks/run_working_set_matrix.py):
    a persisted state machine over a progress file, one output and one log per cell, and
    archives of interrupted attempts.  The process may die before any durable effect. */
module MatrixRun {
  import opened FiniteSets
  import opened Wrappers

  datatype Engine = Prism | Vllm | Sglang
  datatype Workset = Fit | Knee | Pressure
  datatype Variant = VisionOnly | DensePrefix | CompactPrefix | EngineDefault
  datatype Cell = Cell(engine: Engine, workset: Workset, variant: Variant)

  function WorksetCells(w: Workset): seq<Cell> {
    [Cell(Prism, w, VisionOnly), Cell(Prism, w, DensePrefix), Cell(Prism, w, CompactPrefix),
     Cell(Vllm, w, EngineDefault), Cell(Sglang, w, EngineDefault)]
  }

  function Cells(): seq<Cell> {
    WorksetCells(Fit) + WorksetCells(Knee) + WorksetCells(Pressure)
  }

  /** Position of a valid cell in the canonical order. */
  function Position(c: Cell): nat {
    (match c.workset case Fit => 0 case Knee => 5 case Pressure => 10) +
    (match c.variant
     case VisionOnly => 0
     case DensePrefix => 1
     case CompactPrefix => 2
     case EngineDefault => if c.engine.Vllm? then 3 else 4)
  }

  /** The canonical cells are distinct and cover, for every workset, exactly the three Prism
      variants and one default run of each external engine. */
  lemma CanonicalCells()
    ensures |Cells()| == 15 && Distinct(Cells())
    ensures forall c: Cell :: c in Cells() <==> (c.engine.Prism? <==> !c.variant.EngineDefault?)
  {
    var all := Cells();
    forall i | 0 <= i < 15
      ensures Position(all[i]) == i && (all[i].engine.Prism? <==> !all[i].variant.EngineDefault?)
    {
      var w := if i < 5 then Fit else if i < 10 then Knee else Pressure;
      assert all[i] == WorksetCells(w)[i % 5];
    }
    forall c: Cell | c.engine.Prism? <==> !c.variant.EngineDefault?
      ensures c in all
    {
      assert WorksetCells(c.workset)[Position(c) % 5] == c;
      assert all[Position(c)] == c;
    }
  }

  /** Canonical and archive paths.  An archive name carries the attempt number. */
  datatype Path =
    | Output(cell: Cell)
    | Log(cell: Cell)
    | ArchivedOutput(cell: Cell, attempt: nat)
    | ArchivedLog(cell: Cell, attempt: nat)

  predicate Canonical(p: Path) { p.Output? || p.Log? }

  function Archive(p: Path, attempt: nat): Path
    requires Canonical(p)
  {
    if p.Output? then ArchivedOutput(p.cell, attempt) else ArchivedLog(p.cell, attempt)
  }

  /** What the bytes of a file decode to.  A digest is injective, so it is the content itself. */
  datatype Content = JsonObject(data: seq<int>) | OtherText(data: seq<int>)

  datatype Status = Running | Failed | Complete(outputDigest: Content)
  datatype Record = Record(index: nat, cell: Cell, output: Path, log: Path, status: Status)
  datatype Attempt = Attempt(record: Record, archivedOutput: Option<Path>, archivedLog: Option<Path>)
  datatype RunStatus = RunFailed | RunComplete

  /** matrix_progress.json; `identity` stands for its Git and plan records. */
  datatype Progress = Progress(identity: int, cells: seq<Record>, attempts: seq<Attempt>,
                               status: Option<RunStatus>)

  /** A file.  Its id tells it apart from other files, also from those with the same bytes; a rename
      keeps it. */
  datatype File = File(id: nat, content: Content)

  type Files = map<Path, File>

  /** No file is at two places; ids from `born` on are still unused. */
  ghost predicate Apart(files: Files, born: nat) {
    && (forall p :: p in files ==> files[p].id < born)
    && forall p, q :: p in files && q in files && p != q ==> files[p].id != files[q].id
  }

  datatype Reason =
    | NoProgress | ProgressExists | ArtifactExists | IdentityMismatch | InvalidCellList
    | RecordMismatch | MissingArtifact | DigestMismatch | NotJson | NotResumable

  /** How a session ends.  The two collisions are the checks that guard existing artifacts. */
  datatype Outcome =
    | Finished | CellFailed | Crashed | Refused(reason: Reason) | ArchiveCollision | RemainingCollision

  // ----- what the disk looks like between any two durable effects

  predicate RecordMatches(r: Record, cell: Cell, index: nat) {
    r.index == index && r.cell == cell && r.output == Output(cell) && r.log == Log(cell)
  }

  /** Evidence of a complete cell: both artifacts exist and the digest matches the output. */
  predicate CellEvidence(r: Record, files: Files) {
    && r.status.Complete?
    && Output(r.cell) in files && Log(r.cell) in files
    && files[Output(r.cell)].content == r.status.outputDigest
  }

  predicate OutputParses(r: Record, files: Files) {
    Output(r.cell) in files && files[Output(r.cell)].content.JsonObject?
  }

  predicate Trailing(p: Progress) {
    p.cells != [] && !p.cells[|p.cells| - 1].status.Complete?
  }

  /** Number of complete cells at the front of the record list. */
  function CompleteCount(p: Progress): nat {
    if Trailing(p) then |p.cells| - 1 else |p.cells|
  }

  /** A canonical-order prefix of complete cells plus at most one trailing attempt. */
  ghost predicate CanonicalPrefix(p: Progress, cells: seq<Cell>, files: Files) {
    && |p.cells| <= |cells|
    && (forall i :: 0 <= i < |p.cells| ==> RecordMatches(p.cells[i], cells[i], i + 1))
    && (forall i :: 0 <= i < CompleteCount(p) ==> CellEvidence(p.cells[i], files))
    && (p.status == Some(RunComplete) ==> |p.cells| == |cells| && !Trailing(p))
  }

  /** No artifact of a cell from position `from` on: what the remaining-artifact check looks for. */
  ghost predicate RemainingClear(from: nat, cells: seq<Cell>, files: Files) {
    forall i :: from <= i < |cells| ==> Output(cells[i]) !in files && Log(cells[i]) !in files
  }

  /** Archives use numbers of committed attempts, or the pending number for the trailing cell
      after a crash between its rename and the progress write. */
  ghost predicate ArchivesNumbered(p: Progress, files: Files) {
    forall q :: q in files && !Canonical(q) ==>
      && 1 <= q.attempt <= |p.attempts| + 1
      && (q.attempt == |p.attempts| + 1 ==>
            && Trailing(p) && q.cell == p.cells[|p.cells| - 1].cell
            && (q.ArchivedOutput? ==> Output(q.cell) !in files)
            && (q.ArchivedLog? ==> Log(q.cell) !in files))
  }

  ghost predicate DiskOk(p: Progress, cells: seq<Cell>, files: Files) {
    CanonicalPrefix(p, cells, files) && RemainingClear(|p.cells|, cells, files) && ArchivesNumbered(p, files)
  }

  // ----- the verdict of the resume checks, as a function of the disk

  function CompletedCellError(r: Record, files: Files): Option<Reason>
    requires r.status.Complete?
  {
    if Output(r.cell) !in files || Log(r.cell) !in files then Some(MissingArtifact)
    else if files[Output(r.cell)].content != r.status.outputDigest then Some(DigestMismatch)
    else if !files[Output(r.cell)].content.JsonObject? then Some(NotJson)
    else None
  }

  /** The verdict of the record loop from `i` on. */
  function RecordsError(p: Progress, cells: seq<Cell>, files: Files, i: nat): Option<Reason>
    requires i <= |p.cells| <= |cells|
    decreases |p.cells| - i
  {
    if i == |p.cells| then None
    else if !RecordMatches(p.cells[i], cells[i], i + 1) then Some(RecordMismatch)
    else if p.cells[i].status.Complete? then
      var e := CompletedCellError(p.cells[i], files);
      if e.Some? then e else RecordsError(p, cells, files, i + 1)
    else if i != |p.cells| - 1 then Some(NotResumable)
    else None
  }

  function ResumeError(progress: Option<Progress>, identity: int, cells: seq<Cell>, files: Files): Option<Reason> {
    if progress.None? then Some(NoProgress)
    else if progress.value.identity != identity then Some(IdentityMismatch)
    else if |progress.value.cells| > |cells| then Some(InvalidCellList)
    else RecordsError(progress.value, cells, files, 0)
  }

  /** On a disk that some run left behind, `--resume` is refused exactly when the checkout or
      plan changed or an output recorded as complete is not a JSON object.  A child that exits
      with code 0 and leaves other text makes its matrix unresumable: completion itself
      never parses the output. */
  lemma ResumeRefusedIff(p: Progress, identity: int, cells: seq<Cell>, files: Files)
    requires DiskOk(p, cells, files)
    ensures ResumeError(Some(p), identity, cells, files).Some? <==>
            p.identity != identity ||
            exists i :: 0 <= i < CompleteCount(p) && !OutputParses(p.cells[i], files)
    ensures var e := ResumeError(Some(p), identity, cells, files);
            e.Some? ==> e.value == if p.identity != identity then IdentityMismatch else NotJson
  {
    if culprit :| 0 <= culprit < CompleteCount(p) && !OutputParses(p.cells[culprit], files) {
      RecordsRefused(p, cells, files, 0, culprit);
    } else {
      RecordsAccepted(p, cells, files, 0);
    }
  }

  lemma {:induction false} RecordsRefused(p: Progress, cells: seq<Cell>, files: Files, i: nat, culprit: nat)
    requires CanonicalPrefix(p, cells, files)
    requires i <= culprit < CompleteCount(p) && !OutputParses(p.cells[culprit], files)
    ensures RecordsError(p, cells, files, i) == Some(NotJson)
    decreases culprit - i
  {
    CompleteRecordVerdict(p, cells, files, i);
    if OutputParses(p.cells[i], files) {
      RecordsRefused(p, cells, files, i + 1, culprit);
    }
  }

  lemma {:induction false} RecordsAccepted(p: Progress, cells: seq<Cell>, files: Files, i: nat)
    requires CanonicalPrefix(p, cells, files) && i <= CompleteCount(p)
    requires forall k :: i <= k < CompleteCount(p) ==> OutputParses(p.cells[k], files)
    ensures RecordsError(p, cells, files, i).None?
    decreases CompleteCount(p) - i
  {
    if i < CompleteCount(p) {
      CompleteRecordVerdict(p, cells, files, i);
      RecordsAccepted(p, cells, files, i + 1);
    } else if Trailing(p) {
      TrailingNotRefused(p, cells, files);
    }
  }

  lemma CompleteRecordVerdict(p: Progress, cells: seq<Cell>, files: Files, i: nat)
    requires CanonicalPrefix(p, cells, files) && i < CompleteCount(p)
    ensures RecordsError(p, cells, files, i) ==
            if OutputParses(p.cells[i], files) then RecordsError(p, cells, files, i + 1) else Some(NotJson)
  {
    assert RecordMatches(p.cells[i], cells[i], i + 1) && CellEvidence(p.cells[i], files);
  }

  lemma TrailingNotRefused(p: Progress, cells: seq<Cell>, files: Files)
    requires CanonicalPrefix(p, cells, files) && Trailing(p)
    ensures RecordsError(p, cells, files, |p.cells| - 1).None?
  {
    var i := |p.cells| - 1;
    assert RecordMatches(p.cells[i], cells[i], i + 1);
  }

  /** A progress file that says `complete` means every cell ran exactly once to completion, in
      canonical order, with a digest that matches the file at its canonical path. */
  lemma CompleteMeansEveryCell(p: Progress, cells: seq<Cell>, files: Files)
    requires DiskOk(p, cells, files) && Distinct(cells) && p.status == Some(RunComplete)
    ensures |p.cells| == |cells|
    ensures forall i :: 0 <= i < |cells| ==>
              && p.cells[i].cell == cells[i] && p.cells[i].status.Complete?
              && Output(cells[i]) in files && Log(cells[i]) in files
              && files[Output(cells[i])].content == p.cells[i].status.outputDigest
    ensures forall i, j :: 0 <= i < j < |cells| ==> p.cells[i].cell != p.cells[j].cell
  {
    forall i | 0 <= i < |cells|
      ensures p.cells[i].cell == cells[i] && CellEvidence(p.cells[i], files)
    {
      assert RecordMatches(p.cells[i], cells[i], i + 1);
    }
  }

  /** The directory after one archive step: a missing artifact stays missing. */
  function Moved(files: Files, path: Path, attempt: nat): Files
    requires Canonical(path)
  {
    if path in files then (files - {path})[Archive(path, attempt) := files[path]] else files
  }

  function AttemptMoved(files: Files, cell: Cell, attempt: nat): Files {
    Moved(Moved(files, Output(cell), attempt), Log(cell), attempt)
  }

  /** The in-memory note of an archived attempt.  An artifact that a crashed resume already moved
      is noted without its archive path. */
  function AttemptNoted(p: Progress, record: Record, files: Files): Progress {
    var attempt := |p.attempts| + 1;
    p.(attempts := p.attempts + [Attempt(
      record,
      if Output(record.cell) in files then Some(ArchivedOutput(record.cell, attempt)) else None,
      if Log(record.cell) in files then Some(ArchivedLog(record.cell, attempt)) else None)])
  }

  /** Renaming an artifact of the trailing cell to the pending number keeps the disk in order,
      so a crash right after the rename is harmless. */
  lemma ArchivingKeepsDiskOk(p: Progress, cells: seq<Cell>, files: Files, path: Path)
    requires DiskOk(p, cells, files) && Distinct(cells) && Trailing(p)
    requires Canonical(path) && path.cell == p.cells[|p.cells| - 1].cell
    ensures path in files ==> Archive(path, |p.attempts| + 1) !in files
    ensures path !in Moved(files, path, |p.attempts| + 1)
    ensures DiskOk(p, cells, Moved(files, path, |p.attempts| + 1))
  {
    var after := Moved(files, path, |p.attempts| + 1);
    TrailingIsNotComplete(p, cells, files);
    forall i | 0 <= i < CompleteCount(p) ensures CellEvidence(p.cells[i], after) {
      assert CellEvidence(p.cells[i], files);
    }
    assert ArchivesNumbered(p, after) by {
      forall q | q in after && !Canonical(q)
        ensures && 1 <= q.attempt <= |p.attempts| + 1
                && (q.attempt == |p.attempts| + 1 ==>
                      && q.cell == p.cells[|p.cells| - 1].cell
                      && (q.ArchivedOutput? ==> Output(q.cell) !in after)
                      && (q.ArchivedLog? ==> Log(q.cell) !in after))
      {
        if q != Archive(path, |p.attempts| + 1) { assert q in files; }
      }
    }
  }

  // ----- no evidence is lost

  /** Every file of `before` is still there, the same file with the same bytes: at its own path, or
      renamed to an archive of that path. */
  ghost predicate Kept(before: Files, after: Files) {
    forall p :: p in before ==>
      || (p in after && after[p] == before[p])
      || (Canonical(p) && exists n: nat :: Archive(p, n) in after && after[Archive(p, n)] == before[p])
  }

  predicate PlaceOf(p: Path, q: Path) {
    q == p || (Canonical(p) && !Canonical(q) && q == Archive(p, q.attempt))
  }

  /** A kept file is at exactly one path: its own, or exactly one archive of it. */
  lemma KeptAtOnePlace(before: Files, after: Files, born: nat, p: Path)
    requires Kept(before, after) && Apart(after, born) && p in before
    ensures OnePlace(before, after, p)
  {
    if p in after && after[p] == before[p] {
      assert PlaceOf(p, p);
    } else {
      var n: nat :| Archive(p, n) in after && after[Archive(p, n)] == before[p];
      assert PlaceOf(p, Archive(p, n));
    }
  }

  lemma MovedKeepsEvidence(files: Files, path: Path, attempt: nat)
    requires Canonical(path)
    requires path in files ==> Archive(path, attempt) !in files
    ensures Kept(files, Moved(files, path, attempt))
  {
    if path in files {
      assert Moved(files, path, attempt)[Archive(path, attempt)] == files[path];
    }
  }

  lemma KeptTransitive(a: Files, b: Files, c: Files)
    requires Kept(a, b) && Kept(b, c)
    ensures Kept(a, c)
  {
    forall p | p in a
      ensures || (p in c && c[p] == a[p])
              || (Canonical(p) && exists n: nat :: Archive(p, n) in c && c[Archive(p, n)] == a[p])
    {
      if !(p in b && b[p] == a[p]) {
        var n: nat :| Archive(p, n) in b && b[Archive(p, n)] == a[p];
        assert Archive(p, n) in c && c[Archive(p, n)] == a[p];
      }
    }
  }

  /** The driver process together with the disk it works on.  `progressFile` and `files` are
      durable; `progress` is the dictionary the process holds in memory.  Where the process may
      die, a nondeterministic choice returns `Crashed`. */
  class MatrixDriver {
    const cells: seq<Cell>
    const identity: int
    var progressFile: Option<Progress>
    var files: Files
    var progress: Progress
    var born: nat

    /** What holds on disk between any two durable effects of any session. */
    ghost predicate Valid()
      reads this
    {
      && Distinct(cells) && Apart(files, born)
      && (progressFile.None? ==> forall p :: p in files ==> Canonical(p))
      && (progressFile.Some? ==> DiskOk(progressFile.value, cells, files))
    }

    /** A directory without progress and without archives; it may hold foreign canonical files. */
    constructor (cells: seq<Cell>, identity: int, files: Files, born: nat)
      requires Distinct(cells) && Apart(files, born) && forall p :: p in files ==> Canonical(p)
      ensures Valid() && progressFile == None && this.files == files
      ensures this.cells == cells && this.identity == identity
    {
      this.cells, this.identity, this.progressFile, this.files := cells, identity, None, files;
      this.progress, this.born := Progress(identity, [], [], None), born;
    }

    /** Atomic replacement of the progress file. */
    method WriteProgress() returns (alive: bool)
      modifies this`progressFile
      ensures progressFile == if alive then Some(progress) else old(progressFile)
    {
      alive := *;
      if alive {
        progressFile := Some(progress);
      }
    }

    /** Move a canonical artifact to its archive name. */
    method ArchiveFile(path: Path, attempt: nat) returns (stop: Option<Outcome>, archived: Option<Path>)
      requires Canonical(path)
      modifies this`files
      ensures path !in old(files) ==> stop == None && archived == None && files == old(files)
      ensures path in old(files) && Archive(path, attempt) in old(files) ==>
                stop == Some(ArchiveCollision) && files == old(files)
      ensures path in old(files) && Archive(path, attempt) !in old(files) ==>
                || (stop == Some(Crashed) && files == old(files))
                || (stop == None && archived == Some(Archive(path, attempt)) &&
                    files == Moved(old(files), path, attempt))
    {
      stop, archived := None, None;
      if path !in files {
        return;
      }
      var target := Archive(path, attempt);
      if target in files {
        return Some(ArchiveCollision), None;
      }
      var alive: bool := *;
      if !alive {
        return Some(Crashed), None;
      }
      files := (files - {path})[target := files[path]];
      archived := Some(target);
    }

    /** Archiving an artifact of the trailing attempt never meets an existing archive. */
    method ArchiveTrailing(path: Path) returns (stop: Option<Outcome>, archived: Option<Path>)
      requires Valid() && progressFile == Some(progress) && Trailing(progress)
      requires Canonical(path) && path.cell == progress.cells[|progress.cells| - 1].cell
      modifies this`files
      ensures Valid()
      ensures stop == None || (stop == Some(Crashed) && files == old(files))
      ensures stop == None ==>
                && files == Moved(old(files), path, |progress.attempts| + 1)
                && archived == if path in old(files) then Some(Archive(path, |progress.attempts| + 1)) else None
    {
      ArchivingKeepsDiskOk(progress, cells, files, path);
      stop, archived := ArchiveFile(path, |progress.attempts| + 1);
    }

    /** Archive the artifacts of the trailing attempt, output first, and note it in memory. */
    method ArchiveInterruptedAttempt(record: Record) returns (stop: Option<Outcome>)
      requires Valid() && progressFile == Some(progress) && Trailing(progress)
      requires record == progress.cells[|progress.cells| - 1]
      modifies this`files, this`progress
      ensures Valid()
      ensures stop == None || stop == Some(Crashed)
      ensures stop.Some? ==>
                files == old(files) || files == Moved(old(files), Output(record.cell), |old(progress.attempts)| + 1)
      ensures stop == None ==>
                && files == AttemptMoved(old(files), record.cell, |old(progress.attempts)| + 1)
                && progress == AttemptNoted(old(progress), record, old(files))
    {
      hide CanonicalPrefix, ArchivesNumbered, RemainingClear, Apart;
      var archivedOutput, archivedLog;
      stop, archivedOutput := ArchiveTrailing(Output(record.cell));
      if stop.Some? {
        return;
      }
      stop, archivedLog := ArchiveTrailing(Log(record.cell));
      if stop.Some? {
        return;
      }
      progress := progress.(attempts := progress.attempts + [Attempt(record, archivedOutput, archivedLog)]);
    }

    /** The loop of resume checks over the recorded cells. */
    method CheckRecords(p: Progress) returns (error: Option<Reason>, completed: nat)
      requires |p.cells| <= |cells|
      ensures error == RecordsError(p, cells, files, 0)
      ensures error.None? ==>
                && completed == CompleteCount(p)
                && forall i :: 0 <= i < completed ==> CellEvidence(p.cells[i], files) && OutputParses(p.cells[i], files)
    {
      completed := 0;
      var offset := 0;
      while offset < |p.cells|
        invariant completed == offset <= |p.cells|
        invariant RecordsError(p, cells, files, 0) == RecordsError(p, cells, files, offset)
        invariant forall i :: 0 <= i < offset ==> RecordMatches(p.cells[i], cells[i], i + 1)
        invariant forall i :: 0 <= i < offset ==> CellEvidence(p.cells[i], files) && OutputParses(p.cells[i], files)
      {
        var record := p.cells[offset];
        if !RecordMatches(record, cells[offset], offset + 1) {
          return Some(RecordMismatch), completed;
        }
        if record.status.Complete? {
          error := CompletedCellError(record, files);
          if error.Some? {
            return;
          }
          completed := completed + 1;
        } else if offset != |p.cells| - 1 {
          return Some(NotResumable), completed;
        } else {
          return None, completed;
        }
        offset := offset + 1;
      }
      error := None;
    }

    /** Load and check the progress file, archive a trailing attempt, and commit the result. */
    method ResumeProgress() returns (stop: Option<Outcome>, completed: nat)
      requires Valid() && progressFile.Some?
      modifies this`progressFile, this`files, this`progress
      ensures Valid() && Kept(old(files), files)
      ensures ResumeError(old(progressFile), identity, cells, old(files)).Some? ==>
                && stop == Some(Refused(ResumeError(old(progressFile), identity, cells, old(files)).value))
                && files == old(files) && progressFile == old(progressFile)
      ensures ResumeError(old(progressFile), identity, cells, old(files)).None? ==>
                stop == None || stop == Some(Crashed)
      ensures stop.Some? ==> progressFile == old(progressFile)
      ensures stop == None ==>
                && progressFile == Some(progress)
                && completed == CompleteCount(old(progressFile.value)) == |progress.cells|
                && progress.cells == old(progressFile.value).cells[..completed]
                && !Trailing(progress) && progress.status == None
                && RemainingClear(completed, cells, files)
      ensures stop == None ==>
                && progress == Committed(old(progressFile.value), old(files))
                && files == CommittedFiles(old(progressFile.value), old(files))
    {
      progress := progressFile.value;
      completed := 0;
      if progress.identity != identity {
        return Some(Refused(IdentityMismatch)), 0;
      }
      var error;
      error, completed := CheckRecords(progress);
      if error.Some? {
        return Some(Refused(error.value)), completed;
      }
      stop := CommitResume(completed);
    }

    /** The effects of an accepted resume: archive the trailing attempt, if there is one, and
        write the truncated progress. */
    method CommitResume(completed: nat) returns (stop: Option<Outcome>)
      requires Valid() && progressFile == Some(progress) && completed == CompleteCount(progress)
      modifies this`progressFile, this`files, this`progress
      ensures Valid() && Kept(old(files), files)
      ensures stop == None || stop == Some(Crashed)
      ensures stop.Some? ==> progressFile == old(progressFile)
      ensures stop == None ==>
                && progress == Committed(old(progress), old(files)) && progressFile == Some(progress)
                && files == CommittedFiles(old(progress), old(files)) && RemainingClear(completed, cells, files)
    {
      hide CanonicalPrefix, Kept, Moved;
      CommitKeepsDiskOk(progress, cells, files, completed);
      if completed < |progress.cells| {
        stop := ArchiveInterruptedAttempt(progress.cells[completed]);
        if stop.Some? {
          return;
        }
      }
      progress := progress.(cells := progress.cells[..completed], status := None);
      var alive := WriteProgress();
      stop := if alive then None else Some(Crashed);
    }

    /** A new run: refused if any progress or canonical artifact exists. */
    method StartFresh() returns (stop: Option<Outcome>)
      requires Valid()
      modifies this`progressFile, this`progress
      ensures Valid()
      ensures FreshError(old(progressFile), cells, files).Some? ==>
                && stop == Some(Refused(FreshError(old(progressFile), cells, files).value))
                && progressFile == old(progressFile)
      ensures FreshError(old(progressFile), cells, files).None? ==> stop == None || stop == Some(Crashed)
      ensures stop == None ==>
                && progress == Progress(identity, [], [], None)
                && progressFile == Some(progress) && RemainingClear(0, cells, files)
    {
      if progressFile.Some? {
        return Some(Refused(ProgressExists));
      }
      var clear := RemainingArtifactsAbsent(0);
      if !clear {
        return Some(Refused(ArtifactExists));
      }
      progress := Progress(identity, [], [], None);
      var alive := WriteProgress();
      stop := if alive then None else Some(Crashed);
    }

    /** Scan the output and log paths of the cells that are still to run. */
    method RemainingArtifactsAbsent(from: nat) returns (clear: bool)
      requires from <= |cells|
      ensures clear <==> RemainingClear(from, cells, files)
    {
      for i := from to |cells|
        invariant forall k :: from <= k < i ==> Output(cells[k]) !in files && Log(cells[k]) !in files
      {
        if Output(cells[i]) in files || Log(cells[i]) in files {
          return false;
        }
      }
      return true;
    }

    /** Write a file: a new one if there is none at this path. */
    method Write(path: Path, content: Content)
      requires Apart(files, born)
      modifies this`files, this`born
      ensures Apart(files, born)
      ensures path in files && files[path].content == content && files == old(files)[path := files[path]]
    {
      if path in files {
        files := files[path := files[path].(content := content)];
      } else {
        files, born := files[path := File(born, content)], born + 1;
      }
    }

    /** The child of one cell: the log is created, then child and log handle write any number of
        times, in any order; the driver may die before each of these writes. */
    method RunChild(cell: Cell) returns (alive: bool, code: int)
      requires Log(cell) !in files && Apart(files, born)
      modifies this`files, this`born
      ensures SameElsewhere(cell, old(files), files) && Apart(files, born)
      ensures alive ==> Log(cell) in files
    {
      code := *;
      alive := *;
      if !alive {
        return;
      }
      Write(Log(cell), OtherText([]));
      var writes: nat := *;
      while writes > 0
        invariant SameElsewhere(cell, old(files), files) && Log(cell) in files && Apart(files, born)
      {
        alive := *;
        if !alive {
          return;
        }
        var content: Content := *;
        var toLog: bool := *;
        Write(if toLog then Log(cell) else Output(cell), content);
        writes := writes - 1;
      }
    }

    /** One iteration of the run loop. */
    method RunCell() returns (stop: Option<Outcome>)
      requires Valid() && progressFile == Some(progress) && !Trailing(progress) && progress.status == None
      requires |progress.cells| < |cells| && RemainingClear(|progress.cells|, cells, files)
      modifies this
      ensures Valid() && progressFile.Some? && Untouched(old(files), files)
      ensures CompletedKept(old(progress), progressFile.value)
      ensures stop == None || stop == Some(Crashed) || stop == Some(CellFailed)
      ensures stop == None ==>
                && progressFile == Some(progress) && !Trailing(progress) && progress.status == None
                && |progress.cells| == |old(progress).cells| + 1 && RemainingClear(|progress.cells|, cells, files)
      ensures stop == None ==> RanCell(old(progress), old(files), progress, files, cells)
    {
      var index := |progress.cells|;
      var cell := cells[index];
      progress := progress.(cells := progress.cells + [Record(index + 1, cell, Output(cell), Log(cell), Running)]);
      AppendKeepsDiskOk(old(progress), cells, files, Running);
      var alive := WriteProgress();
      if !alive {
        return Some(Crashed);
      }
      var code;
      alive, code := RunChild(cell);
      ChildKeepsDiskOk(old(progress), cells, old(files), files, Running);
      if !alive {
        return Some(Crashed);
      }
      stop := RecordResult(old(progress), old(files), code);
    }

    /** Judge the finished child and commit the status of its cell. */
    method RecordResult(ghost before: Progress, ghost base: Files, code: int) returns (stop: Option<Outcome>)
      requires Valid() && DiskOk(before, cells, base) && !Trailing(before) && before.status == None
      requires |before.cells| < |cells| && RemainingClear(|before.cells|, cells, base)
      requires SameElsewhere(cells[|before.cells|], base, files) && Log(cells[|before.cells|]) in files
      requires progress == Appended(before, cells, Running) && progressFile == Some(progress)
      modifies this`progressFile, this`progress
      ensures Valid() && progressFile.Some? && CompletedKept(before, progressFile.value)
      ensures stop == None || stop == Some(Crashed) || stop == Some(CellFailed)
      ensures stop == None ==>
                && progressFile == Some(progress) && !Trailing(progress) && progress.status == None
                && |progress.cells| == |before.cells| + 1 && RemainingClear(|progress.cells|, cells, files)
      ensures stop == None ==>
                var output := Output(cells[|before.cells|]);
                output in files && progress == Appended(before, cells, Complete(files[output].content))
    {
      hide Apart;
      var index := |progress.cells| - 1;
      var output := Output(progress.cells[index].cell);
      if code != 0 || output !in files {
        progress := progress.(cells := progress.cells[index := progress.cells[index].(status := Failed)],
                              status := Some(RunFailed));
        assert progress == Appended(before, cells, Failed);
        ChildKeepsDiskOk(before, cells, base, files, Failed);
        var alive := WriteProgress();
        return if alive then Some(CellFailed) else Some(Crashed);
      }
      var done := progress.cells[index].(status := Complete(files[output].content));
      progress := progress.(cells := progress.cells[index := done]);
      assert progress == Appended(before, cells, Complete(files[output].content));
      CompletionKeepsDiskOk(before, cells, base, files);
      var alive := WriteProgress();
      stop := if alive then None else Some(Crashed);
    }

    /** Run the remaining cells in order and commit the final status. */
    method RunRemaining(completed: nat) returns (o: Outcome)
      requires Valid() && progressFile == Some(progress) && !Trailing(progress) && progress.status == None
      requires completed == |progress.cells| && RemainingClear(completed, cells, files)
      modifies this
      ensures Valid() && progressFile.Some? && Untouched(old(files), files)
      ensures CompletedKept(old(progress), progressFile.value)
      ensures o.Finished? || o.Crashed? || o.CellFailed?
      ensures o.Finished? ==> progressFile.value.status == Some(RunComplete)
    {
      hide Apart;
      for index := completed to |cells|
        invariant Valid() && progressFile == Some(progress) && !Trailing(progress) && progress.status == None
        invariant |progress.cells| == index && RemainingClear(index, cells, files)
        invariant Untouched(old(files), files) && CompletedKept(old(progress), progress)
      {
        var stop := RunCell();
        if stop.Some? {
          return stop.value;
        }
      }
      progress := progress.(status := Some(RunComplete));
      var alive := WriteProgress();
      o := if alive then Finished else Crashed;
    }

    /** One session of the driver. */
    method RunMatrix(resume: bool) returns (o: Outcome)
      requires Valid()
      modifies this
      ensures Valid() && Kept(old(files), files)
      ensures old(progressFile).Some? ==>
                progressFile.Some? && CompletedKept(old(progressFile.value), progressFile.value)
      ensures var error := if resume then ResumeError(old(progressFile), identity, cells, old(files))
                           else FreshError(old(progressFile), cells, old(files));
              if error.Some?
              then o == Refused(error.value) && files == old(files) && progressFile == old(progressFile)
              else o.Finished? || o.CellFailed? || o.Crashed?
      ensures o.Finished? ==> progressFile.Some? && progressFile.value.status == Some(RunComplete)
    {
      hide Apart, ArchivesNumbered;
      var stop, completed := None, 0;
      if resume {
        if progressFile.None? {
          return Refused(NoProgress);
        }
        stop, completed := ResumeProgress();
      } else {
        stop := StartFresh();
      }
      if stop.Some? {
        return stop.value;
      }
      var clear := RemainingArtifactsAbsent(completed);
      if !clear {
        return RemainingCollision;
      }
      ghost var middle := files;
      o := RunRemaining(completed);
      KeptTransitive(old(files), middle, files);
    }

    /** Any number of sessions, each started with or without `--resume`, each possibly cut off.
        `history` is the directory before the first session and after each of them: whatever a file
        was at one of these moments, it is the same file with the same bytes at every later one, at
        its own path or at exactly one archive of it. */
    method Campaign(requests: seq<bool>) returns (outcomes: seq<Outcome>, ghost history: seq<Files>)
      requires Valid()
      modifies this
      ensures Valid() && |outcomes| == |requests|
      ensures |history| == |requests| + 1 && history[0] == old(files) && history[|requests|] == files
      ensures forall i, j :: 0 <= i <= j < |history| ==> Kept(history[i], history[j])
      ensures forall i, j, p :: 0 <= i <= j < |history| && p in history[i] ==> OnePlace(history[i], history[j], p)
      ensures old(progressFile).Some? ==>
                progressFile.Some? && CompletedKept(old(progressFile.value), progressFile.value)
      ensures Finished in outcomes ==> progressFile.Some? && CompleteCount(progressFile.value) == |cells|
      ensures RemainingCollision !in outcomes && ArchiveCollision !in outcomes
    {
      outcomes, history := [], [files];
      for i := 0 to |requests|
        invariant Valid() && |outcomes| == i
        invariant Recorded(history, i, files) && history[0] == old(files)
        invariant old(progressFile).Some? ==>
                    progressFile.Some? && CompletedKept(old(progressFile.value), progressFile.value)
        invariant Finished in outcomes ==> progressFile.Some? && CompleteCount(progressFile.value) == |cells|
        invariant RemainingCollision !in outcomes && ArchiveCollision !in outcomes
      {
        ghost var before := files;
        var o := RunMatrix(requests[i]);
        HistoryGrows(history, i, before, files, born);
        history := history + [files];
        outcomes := outcomes + [o];
      }
    }
  }

  /** The file at p is at exactly one path later. */
  ghost predicate OnePlace(before: Files, after: Files, p: Path)
    requires p in before
  {
    exists q :: && q in after && after[q] == before[p] && PlaceOf(p, q)
                && forall r :: r in after && after[r].id == before[p].id ==> r == q
  }

  /** The directory after each of n sessions; every file was kept, each at one place. */
  ghost predicate Recorded(history: seq<Files>, n: nat, files: Files) {
    && |history| == n + 1 && history[n] == files
    && (forall i, j :: 0 <= i <= j <= n ==> Kept(history[i], history[j]))
    && forall i, j, p :: 0 <= i <= j <= n && p in history[i] ==> OnePlace(history[i], history[j], p)
  }

  lemma HistoryGrows(history: seq<Files>, n: nat, before: Files, after: Files, born: nat)
    requires Recorded(history, n, before) && Kept(before, after) && Apart(after, born)
    ensures Recorded(history + [after], n + 1, after)
  {
    var longer := history + [after];
    forall i | 0 <= i <= n + 1 ensures Kept(longer[i], after) {
      if i <= n { KeptTransitive(history[i], before, after); }
    }
    forall i, p | 0 <= i <= n + 1 && p in longer[i] ensures OnePlace(longer[i], after, p) {
      KeptAtOnePlace(longer[i], after, born, p);
    }
  }

  /** A child touches only the two artifacts of its cell. */
  ghost predicate SameElsewhere(cell: Cell, before: Files, after: Files) {
    forall p :: p != Output(cell) && p != Log(cell) ==>
      && (p in after <==> p in before)
      && (p in after ==> after[p] == before[p])
  }

  /** Nothing that existed before is changed or moved. */
  ghost predicate Untouched(before: Files, after: Files) {
    forall p :: p in before ==> p in after && after[p] == before[p]
  }

  /** Records of complete cells are never touched again: no cell is run twice to completion. */
  ghost predicate CompletedKept(before: Progress, after: Progress) {
    && CompleteCount(before) <= CompleteCount(after)
    && forall i :: 0 <= i < CompleteCount(before) ==> after.cells[i] == before.cells[i]
  }

  function FreshError(progress: Option<Progress>, cells: seq<Cell>, files: Files): Option<Reason> {
    if progress.Some? then Some(ProgressExists)
    else if exists i :: 0 <= i < |cells| && (Output(cells[i]) in files || Log(cells[i]) in files)
    then Some(ArtifactExists)
    else None
  }

  /** The progress with one more record for the next cell. */
  function Appended(p: Progress, cells: seq<Cell>, status: Status): Progress
    requires |p.cells| < |cells|
  {
    var c := cells[|p.cells|];
    p.(cells := p.cells + [Record(|p.cells| + 1, c, Output(c), Log(c), status)],
       status := if status.Failed? then Some(RunFailed) else p.status)
  }

  /** The next cell ran to completion: its child wrote both of its files and no others. */
  ghost predicate RanCell(p: Progress, before: Files, q: Progress, after: Files, cells: seq<Cell>) {
    && |p.cells| < |cells|
    && var cell := cells[|p.cells|];
       && SameElsewhere(cell, before, after) && Output(cell) in after && Log(cell) in after
       && q == Appended(p, cells, Complete(after[Output(cell)].content))
  }

  lemma AppendKeepsDiskOk(p: Progress, cells: seq<Cell>, files: Files, status: Status)
    requires DiskOk(p, cells, files) && Distinct(cells) && !Trailing(p) && p.status == None
    requires |p.cells| < |cells| && !status.Complete?
    ensures DiskOk(Appended(p, cells, status), cells, files)
    ensures CompletedKept(p, Appended(p, cells, status))
  {
    var after := Appended(p, cells, status);
    forall i | 0 <= i < CompleteCount(after) ensures CellEvidence(after.cells[i], files) {
      assert after.cells[i] == p.cells[i];
    }
  }

  lemma ChildKeepsDiskOk(p: Progress, cells: seq<Cell>, before: Files, files: Files, status: Status)
    requires DiskOk(p, cells, before) && Distinct(cells) && !Trailing(p) && p.status == None
    requires |p.cells| < |cells| && !status.Complete?
    requires RemainingClear(|p.cells|, cells, before)
    requires SameElsewhere(cells[|p.cells|], before, files)
    ensures DiskOk(Appended(p, cells, status), cells, files) && Untouched(before, files)
    ensures CompletedKept(p, Appended(p, cells, status))
  {
    AppendKeepsDiskOk(p, cells, before, status);
    var after := Appended(p, cells, status);
    TrailingIsNotComplete(after, cells, before);
    forall i | 0 <= i < CompleteCount(after) ensures CellEvidence(after.cells[i], files) {
      assert CellEvidence(after.cells[i], before);
    }
  }

  lemma CompletionKeepsDiskOk(p: Progress, cells: seq<Cell>, before: Files, files: Files)
    requires DiskOk(p, cells, before) && Distinct(cells) && !Trailing(p) && p.status == None
    requires |p.cells| < |cells| && RemainingClear(|p.cells|, cells, before)
    requires SameElsewhere(cells[|p.cells|], before, files)
    requires Output(cells[|p.cells|]) in files && Log(cells[|p.cells|]) in files
    ensures var after := Appended(p, cells, Complete(files[Output(cells[|p.cells|])].content));
            DiskOk(after, cells, files) && CompletedKept(p, after) && RemainingClear(|after.cells|, cells, files)
  {
    var after := Appended(p, cells, Complete(files[Output(cells[|p.cells|])].content));
    ChildKeepsDiskOk(p, cells, before, files, Running);
    var running := Appended(p, cells, Running);
    forall i | 0 <= i < |p.cells| ensures CellEvidence(after.cells[i], files) {
      assert running.cells[i] == after.cells[i] && CellEvidence(running.cells[i], files);
    }
  }

  /** The progress that a resume commits: complete cells only, one more attempt if one was cut. */
  function Committed(p: Progress, files: Files): Progress {
    var noted := if Trailing(p) then AttemptNoted(p, p.cells[|p.cells| - 1], files) else p;
    noted.(cells := p.cells[..CompleteCount(p)], status := None)
  }

  function CommittedFiles(p: Progress, files: Files): Files {
    if Trailing(p) then AttemptMoved(files, p.cells[|p.cells| - 1].cell, |p.attempts| + 1) else files
  }

  lemma CommitKeepsDiskOk(p: Progress, cells: seq<Cell>, files: Files, completed: nat)
    requires DiskOk(p, cells, files) && Distinct(cells) && completed == CompleteCount(p)
    ensures DiskOk(Committed(p, files), cells, CommittedFiles(p, files))
    ensures RemainingClear(completed, cells, CommittedFiles(p, files))
    ensures Kept(files, files) && Kept(files, CommittedFiles(p, files))
    ensures Trailing(p) ==> Kept(files, Moved(files, Output(p.cells[completed].cell), |p.attempts| + 1))
  {
    if Trailing(p) {
      var cell := p.cells[|p.cells| - 1].cell;
      MovedKeepsEvidence(files, Output(cell), |p.attempts| + 1);
      ArchivingKeepsDiskOk(p, cells, files, Output(cell));
      var middle := Moved(files, Output(cell), |p.attempts| + 1);
      ArchivingKeepsDiskOk(p, cells, middle, Log(cell));
      MovedKeepsEvidence(middle, Log(cell), |p.attempts| + 1);
      KeptTransitive(files, middle, Moved(middle, Log(cell), |p.attempts| + 1));
      assert RecordMatches(p.cells[completed], cells[completed], completed + 1);
    }
  }

  // ----- records without an archive path, and outputs that are not JSON

  /** After an accepted resume the new attempt record names no archive for a file that is archived
      under its number, exactly if the archive was there before the resume started: an earlier resume
      died between that rename and the progress write. */
  lemma UnrecordedIff(p: Progress, cells: seq<Cell>, files: Files)
    requires DiskOk(p, cells, files) && Trailing(p)
    ensures var cell, n, after := p.cells[|p.cells| - 1].cell, |p.attempts| + 1, CommittedFiles(p, files);
            && |Committed(p, files).attempts| == n
            && var note := Committed(p, files).attempts[n - 1];
               && (ArchivedOutput(cell, n) in after && note.archivedOutput == None <==>
                 ArchivedOutput(cell, n) in files)
               && (ArchivedLog(cell, n) in after && note.archivedLog == None <==> ArchivedLog(cell, n) in files)
  {
  }

  /** The first cell was running; a resume died right after it had renamed the output; the next resume
      is accepted, finds no output any more, and records none, though the archive is there. */
  lemma UnrecordedExample(output: Content, log: Content)
    ensures var cell := Cells()[0];
            var p := Progress(0, [Record(1, cell, Output(cell), Log(cell), Running)], [], None);
            var left := map[Output(cell) := File(1, output), Log(cell) := File(0, log)];
            var crashed := Moved(left, Output(cell), 1);
            && DiskOk(p, Cells(), left) && DiskOk(p, Cells(), crashed)
            && ResumeError(Some(p), 0, Cells(), crashed) == None
            && ArchivedOutput(cell, 1) in CommittedFiles(p, crashed)
            && Committed(p, crashed).attempts == [Attempt(p.cells[0], None, Some(ArchivedLog(cell, 1)))]
  {
    CanonicalCells();
    hide Cells;
    var cell := Cells()[0];
    var p := Progress(0, [Record(1, cell, Output(cell), Log(cell), Running)], [], None);
    var left := map[Output(cell) := File(1, output), Log(cell) := File(0, log)];
    forall i | 1 <= i < 15 ensures Output(Cells()[i]) !in left && Log(Cells()[i]) !in left {
      assert Cells()[i] != cell;
    }
    ArchivingKeepsDiskOk(p, Cells(), left, Output(cell));
    TrailingNotRefused(p, Cells(), Moved(left, Output(cell), 1));
  }

  /** The disk after cells have run to completion without interruption, one for each of `outputs`. */
  function RunOf(cells: seq<Cell>, outputs: seq<Content>): (r: (Progress, Files))
    requires |outputs| <= |cells|
    ensures |r.0.cells| == |outputs|
  {
    if outputs == [] then (Progress(0, [], [], None), map[])
    else
      var n := |outputs| - 1;
      OneMore(cells, RunOf(cells, outputs[..n]), n, outputs[n])
  }

  function OneMore(cells: seq<Cell>, before: (Progress, Files), n: nat, output: Content): (r: (Progress, Files))
    requires n == |before.0.cells| < |cells|
    ensures |r.0.cells| == n + 1
  {
    (Appended(before.0, cells, Complete(output)),
     before.1[Log(cells[n]) := File(2 * n, OtherText([]))][Output(cells[n]) := File(2 * n + 1, output)])
  }

  ghost predicate RanThrough(cells: seq<Cell>, outputs: seq<Content>, p: Progress, files: Files) {
    && DiskOk(p, cells, files) && RemainingClear(|outputs|, cells, files) && |p.cells| == |outputs|
    && !Trailing(p) && p.status == None
    && forall i :: 0 <= i < |outputs| ==> p.cells[i].status == Complete(outputs[i])
  }

  lemma RanOneMore(cells: seq<Cell>, outputs: seq<Content>, p: Progress, before: Files, q: Progress, after: Files)
    requires Distinct(cells) && outputs != [] && |outputs| <= |cells|
    requires RanThrough(cells, outputs[..|outputs| - 1], p, before) && RanCell(p, before, q, after, cells)
    requires after[Output(cells[|p.cells|])].content == outputs[|outputs| - 1]
    ensures RanThrough(cells, outputs, q, after)
  {
    hide DiskOk, SameElsewhere, RemainingClear;
    CompletionKeepsDiskOk(p, cells, before, after);
  }

  /** It is what RunCell leaves behind, cell after cell. */
  lemma OneMoreRan(cells: seq<Cell>, before: (Progress, Files), n: nat, output: Content)
    requires n == |before.0.cells| < |cells|
    ensures var after := OneMore(cells, before, n, output);
            RanCell(before.0, before.1, after.0, after.1, cells) && after.1[Output(cells[n])].content == output
  {
  }

  lemma {:induction false} RunOfOk(cells: seq<Cell>, outputs: seq<Content>)
    requires |outputs| <= |cells| && Distinct(cells)
    ensures RanThrough(cells, outputs, RunOf(cells, outputs).0, RunOf(cells, outputs).1)
  {
    hide RanThrough, Distinct, RanCell, OneMore;
    if outputs != [] {
      var n := |outputs| - 1;
      RunOfOk(cells, outputs[..n]);
      var before, after := RunOf(cells, outputs[..n]), RunOf(cells, outputs);
      OneMoreRan(cells, before, n, outputs[n]);
      RanOneMore(cells, outputs, before.0, before.1, after.0, after.1);
    } else {
      NothingRan(cells);
    }
  }

  lemma NothingRan(cells: seq<Cell>)
    ensures RanThrough(cells, [], Progress(0, [], [], None), map[])
  {
  }

  /** The disk of a matrix that ran through without interruption. */
  function Finish(cells: seq<Cell>, outputs: seq<Content>): (r: (Progress, Files))
    requires |outputs| == |cells|
  {
    var r := RunOf(cells, outputs);
    (r.0.(status := Some(RunComplete)), r.1)
  }

  lemma FinishOk(cells: seq<Cell>, outputs: seq<Content>)
    requires |outputs| == |cells| && Distinct(cells)
    ensures var (p, files) := Finish(cells, outputs);
            && DiskOk(p, cells, files) && p.identity == 0 && CompleteCount(p) == |cells|
            && forall i :: 0 <= i < |outputs| ==> (OutputParses(p.cells[i], files) <==> outputs[i].JsonObject?)
  {
    RunOfOk(cells, outputs);
    SameIdentity(cells, outputs);
    var before := RunOf(cells, outputs);
    hide RunOf, Distinct;
    forall i | 0 <= i < |outputs|
      ensures CellEvidence(before.0.cells[i], before.1)
      ensures OutputParses(before.0.cells[i], before.1) <==> outputs[i].JsonObject?
    {
    }
  }

  lemma {:induction false} SameIdentity(cells: seq<Cell>, outputs: seq<Content>)
    requires |outputs| <= |cells|
    ensures RunOf(cells, outputs).0.identity == 0
  {
    if outputs != [] { SameIdentity(cells, outputs[..|outputs| - 1]); }
  }

  /** Such a matrix can be resumed exactly if each of its outputs is a JSON object. */
  lemma FinishedRefusedIff(cells: seq<Cell>, outputs: seq<Content>)
    requires |outputs| == |cells| && Distinct(cells)
    ensures var (p, files) := Finish(cells, outputs);
            && DiskOk(p, cells, files)
            && ResumeError(Some(p), 0, cells, files) ==
               if exists i :: 0 <= i < |outputs| && !outputs[i].JsonObject? then Some(NotJson) else None
  {
    FinishOk(cells, outputs);
    var (p, files) := Finish(cells, outputs);
    hide Finish, DiskOk, ResumeError, Distinct, OutputParses;
    ResumeRefusedIff(p, 0, cells, files);
  }

  /** All 15 children exited with code 0, but that of one cell left other text: the matrix is complete,
      and `--resume` is refused. */
  lemma UnresumableExample(k: nat)
    requires k < 15
    ensures |Cells()| == 15
    ensures var outputs := seq(15, i => if i == k then OtherText([]) else JsonObject([]));
            var (p, files) := Finish(Cells(), outputs);
            && DiskOk(p, Cells(), files) && p.status == Some(RunComplete)
            && ResumeError(Some(p), 0, Cells(), files) == Some(NotJson)
  {
    CanonicalCells();
    hide Cells;
    var outputs := seq(15, i => if i == k then OtherText([]) else JsonObject([]));
    FinishedRefusedIff(Cells(), outputs);
    assert !outputs[k].JsonObject?;
  }

  /** The artifacts of the trailing cell are not evidence of any complete cell. */
  lemma TrailingIsNotComplete(p: Progress, cells: seq<Cell>, files: Files)
    requires CanonicalPrefix(p, cells, files) && Distinct(cells) && Trailing(p)
    ensures forall i :: 0 <= i < CompleteCount(p) ==> p.cells[i].cell != p.cells[|p.cells| - 1].cell
  {
    forall i | 0 <= i < CompleteCount(p)
      ensures p.cells[i].cell != p.cells[|p.cells| - 1].cell
    {
      assert RecordMatches(p.cells[i], cells[i], i + 1);
    }
  }
}
