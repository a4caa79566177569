/** What the copier's statistics and its files say when calls fail or fall short. */
module CopierBytes {
  import opened Folds
  import opened DirectoryTree
  import opened Copier
  import opened CopierSafety
  import opened CopierTheorems

  /* ---- totalBytesCopied against the bytes written ---- */

  /** Bytes all write calls of a run got through. */
  function Written(events: seq<Event>): nat {
    if events == [] then 0
    else
      var last := events[|events| - 1];
      Written(events[..|events| - 1]) + if last.Write? then last.count else 0
  }

  /** Bytes of a write that falls short: they reach the file but are not counted. */
  function ShortOf(s: State, e: Event): nat {
    if e.Write? && e.i < |s.workers| && s.workers[e.i].Writing? && e.count < |s.workers[e.i].chunk| then e.count else 0
  }

  ghost function Short(job: Job, s: State, events: seq<Event>): nat {
    if events == [] then 0
    else
      var before := events[..|events| - 1];
      match Run(job, s, before)
      case None => 0
      case Some(t) => Short(job, s, before) + ShortOf(t, events[|events| - 1])
  }

  /** Bytes a worker has counted and not yet added to the statistics. */
  function InHand(w: Worker): int {
    match w
    case Copying(_, offset) => offset
    case Writing(_, offset, _) => offset
    case Closing(_, copied) => copied
    case _ => 0
  }

  lemma StepAddsUp(job: Job, s: State, e: Event)
    requires Enabled(job, s, e)
    ensures Apply(job, s, e).total + Sum(Apply(job, s, e).workers, InHand) + ShortOf(s, e)
         == s.total + Sum(s.workers, InHand) + if e.Write? then e.count else 0
  {
    var t := Apply(job, s, e);
    if Who(e).Some? {
      var i := Who(e).value;
      StepStaysHome(job, s, e);
      WorkerBytes(job, s, e);
      hide Enabled, Apply, Sum, ShortOf, InHand;
      SumUpdate(s.workers, i, t.workers[i], InHand);
    } else {
      hide Sum;
      SumSame(t.workers, s.workers, InHand);
    }
  }

  lemma WorkerBytes(job: Job, s: State, e: Event)
    requires Enabled(job, s, e) && Who(e).Some?
    ensures Apply(job, s, e).total + InHand(Apply(job, s, e).workers[Who(e).value]) + ShortOf(s, e)
         == s.total + InHand(s.workers[Who(e).value]) + if e.Write? then e.count else 0
  {
    hide WriteAt;
  }

  /** Every byte written is in the total, in a worker's count, or was part of a short write. */
  lemma {:induction false} BytesAddUp(job: Job, workers: nat, events: seq<Event>, s: State)
    requires Reached(job, workers, events, s)
    ensures s.total + Sum(s.workers, InHand) + Short(job, Init(job, workers), events) == Written(events)
  {
    if events == [] {
      SumZero(s.workers);
    } else {
      var before := events[..|events| - 1];
      var t := Run(job, Init(job, workers), before).value;
      BytesAddUp(job, workers, before, t);
      StepAddsUp(job, t, events[|events| - 1]);
      hide Enabled, Apply, Sum, ShortOf, Init;
    }
  }

  lemma {:induction false} SumZero(workers: seq<Worker>)
    requires forall i :: 0 <= i < |workers| ==> InHand(workers[i]) == 0
    ensures Sum(workers, InHand) == 0
  {
    if workers != [] {
      assert forall i :: 0 <= i < |workers[1..]| ==> workers[1..][i] == workers[i + 1];
      SumZero(workers[1..]);
    }
  }

  /** After the join the total is the number of bytes written, less those of short writes; so it is
      exact when and only when no write fell short after some bytes. */
  lemma TotalIsBytesWritten(job: Job, workers: nat, events: seq<Event>, s: State)
    requires Reached(job, workers, events, s) && s.main.Finished?
    ensures s.total == Written(events) - Short(job, Init(job, workers), events)
    ensures s.total == Written(events) <==>
              forall n :: 0 <= n < |events| ==> ShortAt(job, workers, events, n) == 0
  {
    BytesAddUp(job, workers, events, s);
    ReachedCounts(job, workers, events, s);
    hide BarrierHolds, ClaimsOnce, Run, Short, Written;
    SumZero(s.workers);
    ShortParts(job, workers, events);
  }

  /** The bytes lost to the statistics by the n-th step. */
  ghost function ShortAt(job: Job, workers: nat, events: seq<Event>, n: nat): nat
    requires n < |events|
  {
    match Run(job, Init(job, workers), events[..n])
    case None => 0
    case Some(t) => ShortOf(t, events[n])
  }

  lemma {:induction false} ShortParts(job: Job, workers: nat, events: seq<Event>)
    requires Run(job, Init(job, workers), events).Some?
    ensures Short(job, Init(job, workers), events) == 0 <==>
              forall n :: 0 <= n < |events| ==> ShortAt(job, workers, events, n) == 0
  {
    hide Enabled, Apply, ShortOf, Init;
    if events != [] {
      var before := events[..|events| - 1];
      ShortParts(job, workers, before);
      forall n | 0 <= n < |before|
        ensures ShortAt(job, workers, before, n) == ShortAt(job, workers, events, n)
      {
        assert before[..n] == events[..n];
      }
      assert Short(job, Init(job, workers), events)
          == Short(job, Init(job, workers), before) + ShortAt(job, workers, events, |before|);
      hide Short;
      if forall n :: 0 <= n < |events| ==> ShortAt(job, workers, events, n) == 0 {
        assert forall n :: 0 <= n < |before| ==> ShortAt(job, workers, before, n) == ShortAt(job, workers, events, n);
      } else if forall n :: 0 <= n < |before| ==> ShortAt(job, workers, before, n) == 0 {
        assert forall n :: 0 <= n < |before| ==> ShortAt(job, workers, events, n) == ShortAt(job, workers, before, n);
      }
    }
  }

  /* ---- What a task leaves at its destination ---- */

  ghost predicate SameAt(before: Files, files: Files, path: string) {
    (path in files <==> path in before) && (path in before ==> files[path] == before[path])
  }

  /** Untouched, or the first bytes of the source. */
  ghost predicate PrefixOrUntouched(job: Job, files: Files, k: nat)
    requires k < |job.tasks|
  {
    || SameAt(job.before, files, Dest(job, k))
    || (Readable(job, k) && Dest(job, k) in files && files[Dest(job, k)] <= job.before[Source(job, k)])
  }

  ghost predicate AllPrefixes(job: Job, s: State) {
    forall k :: 0 <= k < |job.tasks| ==> PrefixOrUntouched(job, s.files, k)
  }

  /** A worker's own destination stays a prefix. */
  lemma OwnPrefix(job: Job, s: State, e: Event, k: nat)
    requires Enabled(job, s, e) && Who(e).Some? && k < |job.tasks|
    requires Claims(s.workers[Who(e).value]) && s.workers[Who(e).value].k == k
    requires WorkerFile(job, s, s.workers[Who(e).value]) && PrefixOrUntouched(job, s.files, k)
    ensures PrefixOrUntouched(job, Apply(job, s, e).files, k)
  {
    var w := s.workers[Who(e).value];
    if e.Write? {
      WriteExtends(Content(job, k), w.offset, e.count);
      assert w.chunk[..e.count] == Content(job, k)[w.offset..w.offset + e.count];
    }
    hide WriteAt;
  }

  lemma OtherPrefix(job: Job, s: State, t: State, w: Worker, k: nat)
    requires k < |job.tasks| && PrefixOrUntouched(job, s.files, k) && Independent(job.tasks)
    requires if !Claims(w) then t.files == s.files else
               && w.k != k
               && forall path :: (w.k < |job.tasks| ==> path != Dest(job, w.k)) ==>
                    (path in t.files <==> path in s.files) && (path in s.files ==> t.files[path] == s.files[path])
    ensures PrefixOrUntouched(job, t.files, k)
  {
  }

  lemma PrefixesKept(job: Job, s: State, e: Event)
    requires AllPrefixes(job, s) && WorkersFiles(job, s) && Enabled(job, s, e) && Independent(job.tasks)
    ensures AllPrefixes(job, Apply(job, s, e))
  {
    var t := Apply(job, s, e);
    if Who(e).Some? {
      var i := Who(e).value;
      var w := s.workers[i];
      StepStaysHome(job, s, e);
      forall k | 0 <= k < |job.tasks|
        ensures PrefixOrUntouched(job, t.files, k)
      {
        assert PrefixOrUntouched(job, s.files, k);
        if Claims(w) && w.k == k {
          assert WorkerFile(job, s, w);
          OwnPrefix(job, s, e, k);
        } else {
          hide Apply, Enabled, WorkersFiles;
          OtherPrefix(job, s, t, w, k);
        }
      }
    }
  }

  lemma {:induction false} PrefixesOverRuns(job: Job, workers: nat, events: seq<Event>, s: State)
    requires Reached(job, workers, events, s) && Independent(job.tasks)
    ensures AllPrefixes(job, s)
  {
    if events != [] {
      var before := events[..|events| - 1];
      var t := Run(job, Init(job, workers), before).value;
      PrefixesOverRuns(job, workers, before, t);
      ReachedKeeps(job, workers, before, t);
      PrefixesKept(job, t, events[|events| - 1]);
      hide Enabled, Apply, AllPrefixes, Init, Independent;
    }
  }

  /** Whatever fails, in every reached state each destination is as before or holds the first bytes
      of its source; it is as before when its task was not claimed, it holds all of them when its task
      was finished with and no call failed, and no other file is changed. */
  lemma EveryDestination(job: Job, workers: nat, events: seq<Event>, s: State)
    requires Reached(job, workers, events, s) && Independent(job.tasks)
    ensures s.next <= |job.tasks|
    ensures forall k :: 0 <= k < |job.tasks| ==> PrefixOrUntouched(job, s.files, k)
    ensures forall k :: s.next <= k < |job.tasks| ==> SameAt(job.before, s.files, Dest(job, k))
    ensures forall k :: k in s.processed && k !in s.failed ==> Readable(job, k) && Holds(job, s, k, Content(job, k))
    ensures forall path :: !IsDest(job.tasks, path) ==> SameAt(job.before, s.files, path)
  {
    PrefixesOverRuns(job, workers, events, s);
    ReachedKeeps(job, workers, events, s);
    hide ClaimsOnce, WorkersFiles, Phases, BarrierHolds, TotalAddsUp, Run;
    forall path | !IsDest(job.tasks[..s.next], path)
      ensures SameAt(job.before, s.files, path)
    {
    }
    assert forall k :: s.next <= k < |job.tasks| ==> !IsDest(job.tasks[..s.next], Dest(job, k));
    forall path | !IsDest(job.tasks, path)
      ensures !IsDest(job.tasks[..s.next], path)
    {
      assert forall k :: 0 <= k < s.next ==> job.tasks[..s.next][k] == job.tasks[k];
    }
  }
}
