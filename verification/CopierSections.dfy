/** The critical sections of the copier (Assignment_04) on the shared task buffer. Each does what
    the step relation says. */
module CopierSections {
  import opened DirectoryTree
  import opened Loader
  import opened Copier
  import opened CopierSafety

  /** `SharedBuffer` and `stats` while workers run: the loaded buffer, the cursor, the flags, the total. */
  class SharedWork {
    const buffer: TaskBuffer
    var nextTask: nat
    var done: bool
    var terminate: bool
    var totalBytesCopied: nat

    ghost const job: Job
    ghost var state: State

    ghost predicate Valid()
      reads this, buffer, buffer.tasks
    {
      && buffer.Valid() && buffer.Contents() == job.tasks
      && Bookkeeping(job, state) && state.next == nextTask && state.done == done && state.terminate == terminate
      && state.total == totalBytesCopied
    }

    constructor (buffer: TaskBuffer, ghost job: Job, ghost workers: nat)
      requires buffer.Valid() && buffer.Contents() == job.tasks
      ensures Valid() && this.buffer == buffer && this.job == job && state == Init(job, workers)
    {
      this.buffer, this.job := buffer, job;
      nextTask, done, terminate, totalBytesCopied := 0, false, false, 0;
      state := Init(job, workers);
      new;
      InitInv(job, workers);
      hide Bookkeeping;
    }

    /** A worker's turn (lines 63-74): the file it claimed, none when it sleeps or leaves. */
    method WorkerLocks(ghost i: nat) returns (claimed: bool, task: FileTask)
      requires Valid() && Enabled(job, state, Lock(i))
      modifies this`state, this`nextTask
      ensures Valid() && state == Apply(job, old(state), Lock(i))
      ensures claimed <==> !terminate && old(nextTask) < buffer.numTasks
      ensures claimed ==> job.tasks[old(nextTask)] == task && i < |state.workers|
                          && state.workers[i] == Opening(old(nextTask))
    {
      hide Bookkeeping;
      BookkeepingKept(job, state, Lock(i));
      task := FileTask("", "");
      claimed := !terminate && nextTask < buffer.numTasks;
      assert |job.tasks| == buffer.numTasks;
      if claimed {
        task := buffer.tasks[nextTask];
        nextTask := nextTask + 1;
      }
      state := Apply(job, state, Lock(i));
    }

    /** A worker adds what it copied (lines 103-105). */
    method AddBytes(ghost i: nat, totalBytes: nat)
      requires Valid() && Enabled(job, state, AddStatistics(i)) && state.workers[i].copied == totalBytes
      modifies this`state, this`totalBytesCopied
      ensures Valid() && state == Apply(job, old(state), AddStatistics(i))
      ensures totalBytesCopied == old(totalBytesCopied) + totalBytes
    {
      hide Bookkeeping;
      BookkeepingKept(job, state, AddStatistics(i));
      totalBytesCopied := totalBytesCopied + totalBytes;
      state := Apply(job, state, AddStatistics(i));
    }

    /** Main announces that loading is over (lines 248-251). */
    method AnnounceDone()
      requires Valid() && Enabled(job, state, SetDone)
      modifies this`state, this`done
      ensures Valid() && state == Apply(job, old(state), SetDone)
    {
      hide Bookkeeping;
      BookkeepingKept(job, state, SetDone);
      done := true;
      state := Apply(job, state, SetDone);
    }
  }
}
