/** What the copier promises: a finished run did the first tasks of the list, each once, and left
    what a sequential copy of them leaves; uninterrupted, that is a recursive copy of the tree. */
module CopierTheorems {
  import opened Folds
  import opened DirectoryTree
  import opened Copier
  import opened CopierSafety

  ghost predicate Reached(job: Job, workers: nat, events: seq<Event>, s: State) {
    Run(job, Init(job, workers), events) == Some(s)
  }

  lemma ReachedKeeps(job: Job, workers: nat, events: seq<Event>, s: State)
    requires Reached(job, workers, events, s) && Independent(job.tasks)
    ensures Inv(job, s) && |s.workers| == workers
  {
    InitInv(job, workers);
    RunKeeps(job, Init(job, workers), events);
  }

  lemma ReachedCounts(job: Job, workers: nat, events: seq<Event>, s: State)
    requires Reached(job, workers, events, s)
    ensures Bookkeeping(job, s) && |s.workers| == workers
  {
    InitInv(job, workers);
    BookkeepingOverRuns(job, Init(job, workers), events);
  }

  /* ---- Finished runs ---- */

  /** Interrupted or not, the indices finished with are exactly the claimed ones, the first `next`
      of the list, each once; they are all of them when no signal came and there was a worker. */
  lemma FirstTasksProcessedOnce(job: Job, workers: nat, events: seq<Event>, s: State)
    requires Reached(job, workers, events, s) && s.main.Finished?
    ensures s.next <= |job.tasks| && |s.processed| == s.next && Distinct(s.processed)
    ensures forall k: nat :: k in s.processed <==> k < s.next
    ensures !s.terminate && workers > 0 ==> s.next == |job.tasks|
  {
    ReachedCounts(job, workers, events, s);
    hide BarrierHolds, Run;
    assert forall k: nat :: k in s.processed <==> k < s.next;
    SumPermutation(s.processed, s.next, Sizes(job));
    if !s.terminate && workers > 0 {
      assert s.workers[0].Gone?;
    }
  }

  /** A finished run without a failed call left what copying the first `next` tasks one after the
      other leaves, and counted their bytes. */
  lemma PrefixCopied(job: Job, workers: nat, events: seq<Event>, s: State)
    requires Reached(job, workers, events, s) && Independent(job.tasks) && s.main.Finished? && s.failed == {}
    ensures s.next <= |job.tasks| && s.files == CopyAll(job.before, job.tasks[..s.next])
    ensures s.total == Sum(Range(s.next), Sizes(job))
  {
    ReachedKeeps(job, workers, events, s);
    FirstTasksProcessedOnce(job, workers, events, s);
    SumPermutation(s.processed, s.next, Sizes(job));
    var tasks := job.tasks[..s.next];
    FilesOfPrefix(job, s);
    CopyAllResult(job.before, tasks);
    CopiedIsUnique(job.before, tasks, s.files, CopyAll(job.before, tasks));
  }

  lemma FilesOfPrefix(job: Job, s: State)
    requires ProcessedFiles(job, s) && OthersUntouched(job, s) && Independent(job.tasks)
    requires s.failed == {} && forall k: nat :: k < s.next ==> k in s.processed
    ensures Copied(job.before, job.tasks[..s.next], s.files)
    ensures Independent(job.tasks[..s.next]) && SourcesExist(job.tasks[..s.next], job.before)
  {
    var tasks := job.tasks[..s.next];
    forall k: nat | k < s.next
      ensures tasks[k].dest in s.files && tasks[k].src in job.before
      ensures s.files[tasks[k].dest] == job.before[tasks[k].src]
    {
      assert k in s.processed && k !in s.failed;
      assert Readable(job, k) && Holds(job, s, k, Content(job, k));
    }
  }

  /** With failures, every processed task that did not fail is still copied exactly. */
  lemma UnfailedAreCopied(job: Job, workers: nat, events: seq<Event>, s: State, k: nat)
    requires Reached(job, workers, events, s) && Independent(job.tasks)
    requires k in s.processed && k !in s.failed
    ensures k < |job.tasks| && Source(job, k) in job.before
    ensures Dest(job, k) in s.files && s.files[Dest(job, k)] == job.before[Source(job, k)]
  {
    ReachedKeeps(job, workers, events, s);
  }

  /** For every worker count, every interleaving and every tree apart from its destination, an
      uninterrupted run without a failed call leaves exactly what a recursive copy leaves: each
      regular file under its relative path, and everything else as it was. */
  lemma ParallelCopyIsSequential(
      src: string, dest: string, entries: seq<Entry>, before: Files, barrier: bool,
      workers: nat, events: seq<Event>, s: State)
    requires WellNamed(entries) && Apart(src, dest) && workers > 0
    requires Reached(Job(TasksOf(LoadOps(src, dest, entries)), before, barrier), workers, events, s)
    requires s.main.Finished? && !s.terminate && s.failed == {}
    ensures s.files == CopyTree(src, dest, entries, before)
    ensures forall path :: path in RegularFiles(entries) ==>
              Join(src, path) in before && Join(dest, path) in s.files
              && s.files[Join(dest, path)] == before[Join(src, path)]
    ensures forall path :: (path in s.files) != (path in before) || (path in before && s.files[path] != before[path]) ==>
              exists rel :: rel in RegularFiles(entries) && path == Join(dest, rel)
  {
    var tasks := TasksOf(LoadOps(src, dest, entries));
    var job := Job(tasks, before, barrier);
    TasksIndependent(src, dest, entries);
    FirstTasksProcessedOnce(job, workers, events, s);
    PrefixCopied(job, workers, events, s);
    assert tasks[..s.next] == tasks;
    CopyTreeDoesTheTasks(src, dest, entries, before);
    ReachedKeeps(job, workers, events, s);
    FilesOfPrefix(job, s);
    CopiedByPath(src, dest, entries, before, s.files);
  }

  lemma CopiedByPath(src: string, dest: string, entries: seq<Entry>, before: Files, files: Files)
    requires Copied(before, TasksOf(LoadOps(src, dest, entries)), files)
    ensures forall path :: path in RegularFiles(entries) ==>
              Join(src, path) in before && Join(dest, path) in files
              && files[Join(dest, path)] == before[Join(src, path)]
    ensures forall path :: (path in files) != (path in before) || (path in before && files[path] != before[path]) ==>
              exists rel :: rel in RegularFiles(entries) && path == Join(dest, rel)
  {
    TasksAreRegularFiles(src, dest, entries);
    var paths := RegularFiles(entries);
    var tasks := TasksFor(src, dest, paths);
    forall path | path in paths
      ensures Join(src, path) in before && Join(dest, path) in files
           && files[Join(dest, path)] == before[Join(src, path)]
    {
      var i :| 0 <= i < |paths| && paths[i] == path;
      assert tasks[i] == FileTask(Join(src, path), Join(dest, path));
    }
    forall path | (path in files) != (path in before) || (path in before && files[path] != before[path])
      ensures exists rel :: rel in paths && path == Join(dest, rel)
    {
      assert IsDest(tasks, path);
      var i :| 0 <= i < |tasks| && tasks[i].dest == path;
      assert paths[i] in paths && path == Join(dest, paths[i]);
    }
  }

  /* ---- The barrier ---- */

  /** Once main is past the barrier every worker is out of its loop, so whatever else happens the
      statistics and the files main reports on stay as they are. */
  lemma {:induction false} StatisticsFinal(
      job: Job, workers: nat, events: seq<Event>, s: State, more: seq<Event>, t: State)
    requires Reached(job, workers, events, s)
    requires job.barrier && (s.main.Joining? || s.main.Finished?)
    requires Run(job, s, more) == Some(t)
    ensures t.total == s.total && t.files == s.files && t.next == s.next && t.processed == s.processed
    ensures forall i :: 0 <= i < |t.workers| ==> t.workers[i].AtBarrier? || t.workers[i].Gone?
  {
    ReachedCounts(job, workers, events, s);
    OutOfLoopStays(job, s, more, t);
  }

  lemma {:induction false} OutOfLoopStays(job: Job, s: State, more: seq<Event>, t: State)
    requires BarrierHolds(job, s) && job.barrier && (s.main.Joining? || s.main.Finished?)
    requires Run(job, s, more) == Some(t)
    ensures t.total == s.total && t.files == s.files && t.next == s.next && t.processed == s.processed
    ensures forall i :: 0 <= i < |t.workers| ==> t.workers[i].AtBarrier? || t.workers[i].Gone?
    ensures t.main.Joining? || t.main.Finished?
  {
    if more == [] {
      AllArrived(s.workers);
    } else {
      var before := more[..|more| - 1];
      OutOfLoopStays(job, s, before, Run(job, s, before).value);
      LastStepIsQuiet(job, Run(job, s, before).value, more[|more| - 1]);
    }
    hide BarrierHolds, Apply, Enabled;
  }

  lemma LastStepIsQuiet(job: Job, s: State, e: Event)
    requires Enabled(job, s, e) && (s.main.Joining? || s.main.Finished?)
    requires forall i :: 0 <= i < |s.workers| ==> s.workers[i].AtBarrier? || s.workers[i].Gone?
    ensures var t := Apply(job, s, e);
            && t.total == s.total && t.files == s.files && t.next == s.next && t.processed == s.processed
            && (t.main.Joining? || t.main.Finished?)
            && forall i :: 0 <= i < |t.workers| ==> t.workers[i].AtBarrier? || t.workers[i].Gone?
  {
  }
}
