/** What every interleaving of the copier keeps. */
module CopierSafety {
  import opened Folds
  import opened DirectoryTree
  import opened Copier

  /** Each claimed index is in the hands of the worker that claimed it or finished with, never both,
      never twice. */
  ghost predicate ClaimsOnce(job: Job, s: State) {
    && s.next == |s.claimedBy| <= |job.tasks|
    && (forall i :: 0 <= i < |s.workers| && Claims(s.workers[i]) ==>
          s.workers[i].k < s.next && s.claimedBy[s.workers[i].k] == i && s.workers[i].k !in s.processed)
    && (forall k :: 0 <= k < s.next && k !in s.processed ==>
          s.claimedBy[k] < |s.workers| && Claims(s.workers[s.claimedBy[k]]) && s.workers[s.claimedBy[k]].k == k)
    && (forall a :: 0 <= a < |s.processed| ==> s.processed[a] < s.next)
    && Distinct(s.processed)
    && (forall k :: k in s.failed ==> k < s.next)
  }

  /** The destination of task k holds exactly these bytes. */
  ghost predicate Holds(job: Job, s: State, k: nat, bytes: Bytes) {
    k < |job.tasks| && Dest(job, k) in s.files && s.files[Dest(job, k)] == bytes
  }

  ghost predicate Readable(job: Job, k: nat) {
    k < |job.tasks| && Source(job, k) in job.before
  }

  /** How far a worker is with its file. */
  ghost predicate WorkerFile(job: Job, s: State, w: Worker) {
    match w
    case Truncating(k) => Readable(job, k)
    case Copying(k, offset) =>
      Readable(job, k) && offset <= |Content(job, k)| && Holds(job, s, k, Content(job, k)[..offset])
    case Writing(k, offset, chunk) =>
      && Readable(job, k) && chunk != [] && offset + |chunk| <= |Content(job, k)|
      && chunk == Content(job, k)[offset..offset + |chunk|]
      && Holds(job, s, k, Content(job, k)[..offset])
    case Closing(k, copied) =>
      && Readable(job, k) && copied <= |Content(job, k)|
      && (k !in s.failed ==> copied == |Content(job, k)| && Holds(job, s, k, Content(job, k)))
    case _ => true
  }

  ghost predicate WorkersFiles(job: Job, s: State) {
    forall i :: 0 <= i < |s.workers| ==> WorkerFile(job, s, s.workers[i])
  }

  ghost predicate ProcessedFiles(job: Job, s: State) {
    forall k :: k in s.processed && k !in s.failed ==> Readable(job, k) && Holds(job, s, k, Content(job, k))
  }

  /** Only destinations of claimed tasks were touched. */
  ghost predicate OthersUntouched(job: Job, s: State) {
    s.next <= |job.tasks| &&
    forall path :: !IsDest(job.tasks[..s.next], path) ==>
      (path in s.files <==> path in job.before) && (path in job.before ==> s.files[path] == job.before[path])
  }

  ghost predicate TotalAddsUp(job: Job, s: State) {
    && s.total <= Sum(s.processed, Sizes(job))
    && (s.failed == {} ==> s.total == Sum(s.processed, Sizes(job)))
  }

  ghost predicate Phases(job: Job, s: State) {
    && (s.done <==> !s.main.Spawning?)
    && (s.done ==> forall i :: 0 <= i < |s.workers| ==> !s.workers[i].Unborn? && !s.workers[i].Asleep?)
    && (forall i :: 0 <= i < |s.workers| && (s.workers[i].Left? || s.workers[i].AtBarrier? || s.workers[i].Gone?) ==>
          s.terminate || (s.done && s.next == |job.tasks|))
    && (s.main.Finished? ==> forall i :: 0 <= i < |s.workers| ==> s.workers[i].Gone?)
  }

  function HasArrived(w: Worker): int { if w.AtBarrier? || w.Gone? then 1 else 0 }

  function MainHasArrived(m: Main): int { if m.MainAtBarrier? || m.Joining? || m.Finished? then 1 else 0 }

  ghost predicate BarrierHolds(job: Job, s: State) {
    if job.barrier then
      && s.arrived == Sum(s.workers, HasArrived) + MainHasArrived(s.main)
      && ((s.main.Joining? || s.main.Finished?) ==> s.arrived == |s.workers| + 1)
      && (forall i :: 0 <= i < |s.workers| && s.workers[i].Gone? ==> s.arrived == |s.workers| + 1)
    else
      && !s.main.BeforeBarrier? && !s.main.MainAtBarrier?
      && (forall i :: 0 <= i < |s.workers| ==> !s.workers[i].AtBarrier?)
  }

  /** What holds for any list of tasks, also one whose sources and destinations overlap. */
  ghost predicate Bookkeeping(job: Job, s: State) {
    ClaimsOnce(job, s) && Phases(job, s) && BarrierHolds(job, s)
  }

  /** What the files add when the tasks are independent. */
  ghost predicate Inv(job: Job, s: State) {
    && Bookkeeping(job, s) && WorkersFiles(job, s) && ProcessedFiles(job, s) && OthersUntouched(job, s)
    && TotalAddsUp(job, s)
  }

  lemma InitInv(job: Job, workers: nat)
    ensures Inv(job, Init(job, workers))
  {
    var s := Init(job, workers);
    SumNonNegative(s.workers, HasArrived);
    SumScaled(s.workers, HasArrived, HasArrived, 0);
    assert job.tasks[..0] == [];
    hide Sum;
  }

  /* ---- Claims ---- */

  lemma ClaimNext(job: Job, s: State, e: Event)
    requires ClaimsOnce(job, s) && Enabled(job, s, e) && e.Lock?
    ensures ClaimsOnce(job, Apply(job, s, e))
  {
  }

  /** The worker is done with its index, one way or the other. */
  lemma ClaimFinished(job: Job, s: State, i: nat, k: nat, t: State)
    requires ClaimsOnce(job, s) && i < |s.workers| && Claims(s.workers[i]) && s.workers[i].k == k
    requires t.workers == s.workers[i := Ready] && t.processed == s.processed + [k]
    requires t.next == s.next && t.claimedBy == s.claimedBy
    requires t.failed == s.failed || t.failed == s.failed + {k}
    ensures ClaimsOnce(job, t)
  {
  }

  lemma ClaimsKept(job: Job, s: State, e: Event)
    requires ClaimsOnce(job, s) && Enabled(job, s, e)
    ensures ClaimsOnce(job, Apply(job, s, e))
  {
    if e.Lock? {
      ClaimNext(job, s, e);
    } else if e.AddStatistics? || (e.OpenSource? && !e.ok) || (e.OpenDest? && !e.ok) {
      ClaimFinished(job, s, e.i, s.workers[e.i].k, Apply(job, s, e));
    } else {
      ClaimCarriedOn(job, s, e);
    }
  }

  /** A step that neither claims nor finishes leaves every claim with its worker. */
  lemma SameClaims(job: Job, s: State, e: Event)
    requires Enabled(job, s, e)
    requires !e.Lock? && !e.AddStatistics? && ((e.OpenSource? || e.OpenDest?) ==> e.ok)
    ensures var t := Apply(job, s, e);
            && t.processed == s.processed && t.claimedBy == s.claimedBy && t.next == s.next
            && |t.workers| == |s.workers|
            && (forall j :: 0 <= j < |s.workers| ==>
                  && (Claims(t.workers[j]) <==> Claims(s.workers[j]))
                  && (Claims(s.workers[j]) ==> t.workers[j].k == s.workers[j].k))
            && forall k :: k in t.failed ==> k in s.failed || exists j :: 0 <= j < |s.workers| && Claims(s.workers[j]) && s.workers[j].k == k
  {
    hide WriteAt;
    if Who(e).Some? {
      StepStaysHome(job, s, e);
      SameClaim(job, s, e);
      hide Apply, Enabled;
    }
  }

  lemma SameClaim(job: Job, s: State, e: Event)
    requires Enabled(job, s, e) && Who(e).Some?
    requires !e.Lock? && !e.AddStatistics? && ((e.OpenSource? || e.OpenDest?) ==> e.ok)
    ensures var t := Apply(job, s, e); var i := Who(e).value;
            && t.processed == s.processed && t.claimedBy == s.claimedBy && t.next == s.next
            && (Claims(t.workers[i]) <==> Claims(s.workers[i]))
            && (Claims(s.workers[i]) ==> t.workers[i].k == s.workers[i].k)
  {
    hide WriteAt;
  }

  lemma ClaimCarriedOn(job: Job, s: State, e: Event)
    requires ClaimsOnce(job, s) && Enabled(job, s, e)
    requires !e.Lock? && !e.AddStatistics? && ((e.OpenSource? || e.OpenDest?) ==> e.ok)
    ensures ClaimsOnce(job, Apply(job, s, e))
  {
    SameClaims(job, s, e);
    hide Apply, Enabled, Claims;
  }

  lemma PhasesKept(job: Job, s: State, e: Event)
    requires Phases(job, s) && ClaimsOnce(job, s) && Enabled(job, s, e)
    ensures Phases(job, Apply(job, s, e))
  {
    assert s.next <= |job.tasks|;
    hide WriteAt, ClaimsOnce, Goto;
    if Who(e).Some? {
      PhaseOfWorker(job, s, e);
    }
  }

  lemma PhaseOfWorker(job: Job, s: State, e: Event)
    requires Phases(job, s) && s.next <= |job.tasks| && Enabled(job, s, e) && Who(e).Some?
    ensures Phases(job, Apply(job, s, e))
  {
    hide WriteAt;
  }

  lemma ArrivalsCounted(job: Job, s: State, e: Event)
    requires Enabled(job, s, e)
    ensures Sum(Apply(job, s, e).workers, HasArrived)
         == Sum(s.workers, HasArrived) + if e.Arrive? then 1 else 0
  {
    hide Sum, WriteAt;
    var t := Apply(job, s, e);
    if e.Arrive? {
      SumUpdate(s.workers, e.i, t.workers[e.i], HasArrived);
    } else {
      SumSame(t.workers, s.workers, HasArrived);
    }
  }

  /** Everyone has arrived once the count is full. */
  lemma {:induction false} AllArrived(workers: seq<Worker>)
    ensures 0 <= Sum(workers, HasArrived) <= |workers|
    ensures Sum(workers, HasArrived) == |workers| <==>
              forall i :: 0 <= i < |workers| ==> workers[i].AtBarrier? || workers[i].Gone?
  {
    if workers != [] {
      AllArrived(workers[1..]);
      assert forall i :: 0 <= i < |workers[1..]| ==> workers[1..][i] == workers[i + 1];
      if Sum(workers[1..], HasArrived) == |workers[1..]| {
        assert forall i :: 0 < i < |workers| ==> workers[i] == workers[1..][i - 1];
      }
    }
  }

  lemma BarrierKept(job: Job, s: State, e: Event)
    requires BarrierHolds(job, s) && Enabled(job, s, e)
    ensures BarrierHolds(job, Apply(job, s, e))
  {
    hide Sum;
    ArrivalsCounted(job, s, e);
    AllArrived(s.workers);
    GoneOnlyByPassing(job, s, e);
    hide Apply, WakeAll;
  }

  /** What a step does to the barrier's count, to main, and to the workers past it. */
  lemma GoneOnlyByPassing(job: Job, s: State, e: Event)
    requires Enabled(job, s, e)
    ensures var t := Apply(job, s, e);
            && |t.workers| == |s.workers|
            && t.arrived == s.arrived + (if e.MainArrives? || (e.Arrive? && job.barrier) then 1 else 0)
            && t.main == (match e
                          case SetDone => if job.barrier then BeforeBarrier else Joining
                          case MainArrives => MainAtBarrier
                          case MainPasses => Joining
                          case MainJoins => Finished
                          case _ => s.main)
            && forall i :: 0 <= i < |s.workers| ==>
                 && (t.workers[i].Gone? ==> s.workers[i].Gone? || e == Pass(i) || (e == Arrive(i) && !job.barrier))
                 && (t.workers[i].AtBarrier? ==> s.workers[i].AtBarrier? || (e == Arrive(i) && job.barrier))
  {
    hide WriteAt;
    if Who(e).Some? {
      StepStaysHome(job, s, e);
      WorkerAtBarrier(job, s, e);
      hide Apply, Enabled;
    }
  }

  lemma WorkerAtBarrier(job: Job, s: State, e: Event)
    requires Enabled(job, s, e) && Who(e).Some?
    ensures var t := Apply(job, s, e); var i := Who(e).value;
            && t.arrived == s.arrived + (if e.Arrive? && job.barrier then 1 else 0) && t.main == s.main
            && (t.workers[i].Gone? ==> e.Pass? || (e.Arrive? && !job.barrier))
            && (t.workers[i].AtBarrier? ==> e.Arrive? && job.barrier)
  {
    hide WriteAt;
  }

  /* ---- Files ---- */

  lemma UntouchedKept(job: Job, s: State, e: Event)
    requires OthersUntouched(job, s) && ClaimsOnce(job, s) && Enabled(job, s, e)
    ensures OthersUntouched(job, Apply(job, s, e))
  {
    var t := Apply(job, s, e);
    NextGrows(job, s, e);
    if Who(e).Some? {
      StepStaysHome(job, s, e);
    }
    hide Apply, Enabled;
    forall path | !IsDest(job.tasks[..t.next], path)
      ensures (path in t.files <==> path in job.before) && (path in job.before ==> t.files[path] == job.before[path])
    {
      NoDestEarlier(job.tasks, s.next, t.next, path);
      if Who(e).Some? && Claims(s.workers[Who(e).value]) {
        ClaimedIsDest(job, s.next, s.workers[Who(e).value].k);
      }
      hide IsDest;
    }
  }

  lemma NoDestEarlier(tasks: seq<FileTask>, m: nat, n: nat, path: string)
    requires m <= n <= |tasks| && !IsDest(tasks[..n], path)
    ensures !IsDest(tasks[..m], path)
  {
    assert forall k :: 0 <= k < m ==> tasks[..m][k] == tasks[..n][k];
  }

  lemma ClaimedIsDest(job: Job, n: nat, k: nat)
    requires k < n <= |job.tasks|
    ensures IsDest(job.tasks[..n], Dest(job, k))
  {
    assert job.tasks[..n][k].dest == Dest(job, k);
  }

  lemma NextGrows(job: Job, s: State, e: Event)
    requires s.next <= |job.tasks| && Enabled(job, s, e)
    ensures s.next <= Apply(job, s, e).next <= |job.tasks|
    ensures Who(e).None? ==> Apply(job, s, e).files == s.files
  {
    hide WriteAt;
  }

  /** Bytes of the source as a worker sees them: no task writes them. */
  lemma SourceUnchanged(job: Job, s: State, k: nat)
    requires OthersUntouched(job, s) && Independent(job.tasks) && k < |job.tasks|
    ensures Source(job, k) in s.files <==> Source(job, k) in job.before
    ensures Source(job, k) in s.files ==> s.files[Source(job, k)] == job.before[Source(job, k)]
  {
    assert !IsDest(job.tasks[..s.next], Source(job, k));
  }

  /** A worker's write reaches no file another worker has in hand. */
  lemma OtherWorkersFile(job: Job, s: State, t: State, i: nat, j: nat, k: nat)
    requires ClaimsOnce(job, s) && Independent(job.tasks) && i < |s.workers| && j < |s.workers| && i != j
    requires Claims(s.workers[i]) && s.workers[i].k == k
    requires WorkerFile(job, s, s.workers[j])
    requires t.failed == s.failed || t.failed == s.failed + {k}
    requires forall path :: (k < |job.tasks| ==> path != Dest(job, k)) ==>
               (path in t.files <==> path in s.files) && (path in s.files ==> t.files[path] == s.files[path])
    ensures WorkerFile(job, t, s.workers[j])
  {
  }

  /** Writing the next bytes at the end extends the copied part. */
  lemma WriteExtends(content: Bytes, offset: nat, n: nat)
    requires offset + n <= |content|
    ensures WriteAt(content[..offset], offset, content[offset..offset + n]) == content[..offset + n]
  {
  }

  /** The copying loop of one worker on its own, whatever read and write return: what arrives is a
      prefix of the source, and all of it, fully counted, unless a call failed or fell short. */
  method CopyLoop(source: Bytes) returns (dest: Bytes, totalBytes: nat, failed: bool)
    ensures totalBytes <= |dest| <= |source| && dest == source[..|dest|]
    ensures !failed ==> dest == source && totalBytes == |source|
    ensures failed ==> |dest| < totalBytes + 4096
  {
    dest, totalBytes, failed := [], 0, false;
    while totalBytes < |source|
      invariant totalBytes <= |source| && dest == source[..totalBytes] && !failed
      decreases |source| - totalBytes
    {
      if * {
        return dest, totalBytes, true;
      }
      assert 0 < 1 <= BUFFER_SIZE && totalBytes + 1 <= |source|;
      var bytesRead: nat :| 0 < bytesRead <= BUFFER_SIZE && totalBytes + bytesRead <= |source|;
      var buffer := source[totalBytes..totalBytes + bytesRead];
      var bytesWritten: nat :| 0 <= bytesWritten <= bytesRead;
      WriteExtends(source, totalBytes, bytesWritten);
      assert buffer[..bytesWritten] == source[totalBytes..totalBytes + bytesWritten];
      dest := WriteAt(dest, totalBytes, buffer[..bytesWritten]);
      if bytesWritten != bytesRead {
        return dest, totalBytes, true;
      }
      totalBytes := totalBytes + bytesWritten;
    }
    failed := *;  // the last read finds the end or fails
  }

  /** The worker a step belongs to. */
  function Who(e: Event): Option<nat> {
    match e
    case Lock(i) => Some(i)
    case Wake(i) => Some(i)
    case Spawn(i) => Some(i)
    case OpenSource(i, _) => Some(i)
    case OpenDest(i, _) => Some(i)
    case Read(i, _) => Some(i)
    case ReadFails(i) => Some(i)
    case Write(i, _) => Some(i)
    case AddStatistics(i) => Some(i)
    case Arrive(i) => Some(i)
    case Pass(i) => Some(i)
    case _ => None
  }

  lemma OwnFile(job: Job, s: State, e: Event)
    requires WorkersFiles(job, s) && OthersUntouched(job, s) && Independent(job.tasks)
    requires Enabled(job, s, e) && Who(e).Some?
    ensures WorkerFile(job, Apply(job, s, e), Apply(job, s, e).workers[Who(e).value])
  {
    var w := s.workers[Who(e).value];
    assert WorkerFile(job, s, w);
    if e.OpenSource? || e.Read? {
      SourceUnchanged(job, s, w.k);
    }
    hide OthersUntouched, WorkersFiles, Independent, WriteAt;
    if e.Write? {
      WrittenFile(job, s, e);
    } else {
      NotWrittenFile(job, s, e);
    }
  }

  lemma WrittenFile(job: Job, s: State, e: Event)
    requires Enabled(job, s, e) && e.Write? && WorkerFile(job, s, s.workers[e.i])
    ensures WorkerFile(job, Apply(job, s, e), Apply(job, s, e).workers[e.i])
  {
    var w := s.workers[e.i];
    if e.count == |w.chunk| {
      WriteExtends(Content(job, w.k), w.offset, e.count);
      assert w.chunk[..e.count] == w.chunk;
    }
    hide WriteAt;
  }

  lemma NotWrittenFile(job: Job, s: State, e: Event)
    requires Enabled(job, s, e) && Who(e).Some? && !e.Write?
    requires WorkerFile(job, s, s.workers[Who(e).value])
    requires e.OpenSource? || e.Read? ==>
               var k := s.workers[e.i].k;
               && k < |job.tasks|
               && (Source(job, k) in s.files ==>
                     Source(job, k) in job.before && s.files[Source(job, k)] == job.before[Source(job, k)])
    ensures WorkerFile(job, Apply(job, s, e), Apply(job, s, e).workers[Who(e).value])
  {
  }

  /** Where and how a worker's step changes files: at its own destination, if anywhere. */
  lemma StepStaysHome(job: Job, s: State, e: Event)
    requires Enabled(job, s, e) && Who(e).Some?
    ensures var t := Apply(job, s, e); var i := Who(e).value;
            && |t.workers| == |s.workers| && t.workers == s.workers[i := t.workers[i]]
            && (!Claims(s.workers[i]) ==> t.files == s.files && t.failed == s.failed)
            && (Claims(s.workers[i]) ==>
                  var k := s.workers[i].k;
                  && (t.failed == s.failed || t.failed == s.failed + {k})
                  && forall path :: (k < |job.tasks| ==> path != Dest(job, k)) ==>
                       (path in t.files <==> path in s.files) && (path in s.files ==> t.files[path] == s.files[path]))
  {
    hide WriteAt;
  }

  /** What was finished with before is out of every step's reach. */
  lemma FinishedStays(job: Job, s: State, e: Event, k: nat)
    requires ProcessedFiles(job, s) && ClaimsOnce(job, s) && Independent(job.tasks) && Enabled(job, s, e)
    requires k in s.processed && k !in Apply(job, s, e).failed
    ensures Readable(job, k) && Holds(job, Apply(job, s, e), k, Content(job, k))
  {
    assert k !in s.failed && Readable(job, k) && Holds(job, s, k, Content(job, k));
    if Who(e).Some? {
      StepStaysHome(job, s, e);
    }
    hide ProcessedFiles, WriteAt;
  }

  lemma ProcessedKept(job: Job, s: State, e: Event)
    requires ProcessedFiles(job, s) && ClaimsOnce(job, s) && WorkersFiles(job, s) && Independent(job.tasks)
    requires Enabled(job, s, e)
    ensures ProcessedFiles(job, Apply(job, s, e))
  {
    var t := Apply(job, s, e);
    forall k | k in t.processed && k !in t.failed
      ensures Readable(job, k) && Holds(job, t, k, Content(job, k))
    {
      if k in s.processed {
        FinishedStays(job, s, e, k);
      } else {
        assert WorkerFile(job, s, s.workers[e.i]);
      }
    }
    hide ClaimsOnce, Independent, WriteAt;
  }

  lemma WorkersFilesKept(job: Job, s: State, e: Event)
    requires WorkersFiles(job, s) && ClaimsOnce(job, s) && OthersUntouched(job, s) && Independent(job.tasks)
    requires Enabled(job, s, e)
    ensures WorkersFiles(job, Apply(job, s, e))
  {
    if Who(e).Some? {
      OwnFile(job, s, e);
      StepStaysHome(job, s, e);
      var i, t := Who(e).value, Apply(job, s, e);
      hide Apply, Enabled, Independent;
      forall j | 0 <= j < |s.workers| && j != i
        ensures WorkerFile(job, t, s.workers[j])
      {
        if Claims(s.workers[i]) {
          OtherWorkersFile(job, s, t, i, j, s.workers[i].k);
        } else {
          SameFiles(job, s, t, s.workers[j]);
        }
      }
      hide WorkerFile;
    } else {
      MainStepFiles(job, s, e);
    }
  }

  lemma SameFiles(job: Job, s: State, t: State, w: Worker)
    requires WorkerFile(job, s, w) && t.files == s.files && t.failed == s.failed
    ensures WorkerFile(job, t, w)
  {
  }

  lemma MainStepFiles(job: Job, s: State, e: Event)
    requires WorkersFiles(job, s) && Enabled(job, s, e) && Who(e).None?
    ensures WorkersFiles(job, Apply(job, s, e))
  {
    var t := Apply(job, s, e);
    forall j | 0 <= j < |t.workers|
      ensures WorkerFile(job, t, t.workers[j])
    {
      if t.workers[j] == s.workers[j] {
        SameFiles(job, s, t, s.workers[j]);
      }
    }
  }

  /* ---- Statistics ---- */

  lemma TotalKept(job: Job, s: State, e: Event)
    requires TotalAddsUp(job, s) && WorkersFiles(job, s) && Enabled(job, s, e)
    ensures TotalAddsUp(job, Apply(job, s, e))
  {
    var t := Apply(job, s, e);
    if t.processed != s.processed {
      var k := s.workers[e.i].k;
      SumAppend(s.processed, k, Sizes(job));
      assert WorkerFile(job, s, s.workers[e.i]);
      assert Sizes(job)(k) == |Content(job, k)|;
    }
    hide Sum, WriteAt, Holds;
  }

  /* ---- All of it, over every run ---- */

  lemma BookkeepingKept(job: Job, s: State, e: Event)
    requires Bookkeeping(job, s) && Enabled(job, s, e)
    ensures Bookkeeping(job, Apply(job, s, e)) && |Apply(job, s, e).workers| == |s.workers|
  {
    ClaimsKept(job, s, e);
    PhasesKept(job, s, e);
    BarrierKept(job, s, e);
    StepKeepsSize(job, s, e);
    hide Apply, Enabled, ClaimsOnce, Phases, BarrierHolds;
  }

  lemma {:induction false} BookkeepingOverRuns(job: Job, s: State, events: seq<Event>)
    requires Bookkeeping(job, s) && Run(job, s, events).Some?
    ensures Bookkeeping(job, Run(job, s, events).value) && |Run(job, s, events).value.workers| == |s.workers|
  {
    hide Bookkeeping, Enabled, Apply;
    if events != [] {
      var before := events[..|events| - 1];
      BookkeepingOverRuns(job, s, before);
      BookkeepingKept(job, Run(job, s, before).value, events[|events| - 1]);
    }
  }

  lemma StepKeeps(job: Job, s: State, e: Event)
    requires Inv(job, s) && Enabled(job, s, e) && Independent(job.tasks)
    ensures Inv(job, Apply(job, s, e)) && |Apply(job, s, e).workers| == |s.workers|
  {
    BookkeepingKept(job, s, e);
    WorkersFilesKept(job, s, e);
    ProcessedKept(job, s, e);
    UntouchedKept(job, s, e);
    TotalKept(job, s, e);
    hide Apply, Enabled, Bookkeeping, WorkersFiles, ProcessedFiles, OthersUntouched, TotalAddsUp;
  }

  lemma StepKeepsSize(job: Job, s: State, e: Event)
    requires Enabled(job, s, e)
    ensures |Apply(job, s, e).workers| == |s.workers|
  {
    hide WriteAt;
  }

  lemma {:induction false} RunKeeps(job: Job, s: State, events: seq<Event>)
    requires Inv(job, s) && Run(job, s, events).Some? && Independent(job.tasks)
    ensures Inv(job, Run(job, s, events).value) && |Run(job, s, events).value.workers| == |s.workers|
  {
    hide Inv, Independent, Enabled, Apply;
    if events != [] {
      var before, last := events[..|events| - 1], events[|events| - 1];
      RunKeeps(job, s, before);
      StepKeeps(job, Run(job, s, before).value, last);
    }
  }
}
