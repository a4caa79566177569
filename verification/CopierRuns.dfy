/** Runs of the copier call by call: each way in which a copy can end, and how often a worker takes its
    turn at the mutex. */
module CopierRuns {
  import opened Folds
  import opened DirectoryTree
  import opened Copier
  import opened CopierSafety
  import opened CopierTheorems
  import opened CopierBytes
  import opened CopierInterrupt

  /* ---- One file, call by call ---- */

  /** One file to copy, by one worker. */
  ghost predicate OneFile(job: Job) {
    && |job.tasks| == 1 && Source(job, 0) in job.before && Source(job, 0) != Dest(job, 0) && !job.barrier
    && |Content(job, 0)| >= 2
  }

  /** The worker after the claim, its destination holding these files. */
  ghost function AtWork(files: Files, w: Worker, failed: set<nat>): State {
    State(files, 1, true, false, 0, Joining, [w], 0, [0], [], failed)
  }

  lemma FileClaimed(job: Job) returns (events: seq<Event>)
    requires OneFile(job)
    ensures Reached(job, 1, events, AtWork(job.before, Opening(0), {})) && Written(events) == 0
  {
    hide Run, Written, WriteAt;
    NothingWritten(job, 1);
    var s0 := Init(job, 1);
    events := OneMoreStep(job, 1, [], s0, Spawn(0));
    var s1 := s0.(workers := [Ready]);
    assert Apply(job, s0, Spawn(0)) == s1;
    events := OneMoreStep(job, 1, events, s1, SetDone);
    var s2 := s1.(done := true, main := Joining);
    assert Apply(job, s1, SetDone) == s2;
    events := OneMoreStep(job, 1, events, s2, Lock(0));
    var s3 := AtWork(job.before, Opening(0), {});
    assert Apply(job, s2, Lock(0)) == s3;
  }

  lemma FileOpened(job: Job) returns (events: seq<Event>)
    requires OneFile(job)
    ensures Reached(job, 1, events, AtWork(job.before[Dest(job, 0) := []], Copying(0, 0), {}))
    ensures Written(events) == 0
  {
    hide Run, Written, WriteAt;
    events := FileClaimed(job);
    var s3 := AtWork(job.before, Opening(0), {});
    events := OneMoreStep(job, 1, events, s3, OpenSource(0, true));
    var s4 := AtWork(job.before, Truncating(0), {});
    assert Apply(job, s3, OpenSource(0, true)) == s4;
    events := OneMoreStep(job, 1, events, s4, OpenDest(0, true));
    assert Apply(job, s4, OpenDest(0, true)) == AtWork(job.before[Dest(job, 0) := []], Copying(0, 0), {});
  }

  lemma OneByteWritten(job: Job) returns (events: seq<Event>, files: Files)
    requires OneFile(job)
    ensures Reached(job, 1, events, AtWork(files, Closing(0, 0), {0})) && Written(events) == 1
    ensures Dest(job, 0) in files && files[Dest(job, 0)] == Content(job, 0)[..1]
  {
    hide Run, Written, WriteAt;
    var text := Content(job, 0);
    var n := 2;
    var empty := job.before[Dest(job, 0) := []];
    events := FileOpened(job);
    var s5 := AtWork(empty, Copying(0, 0), {});
    events := OneMoreStep(job, 1, events, s5, Read(0, n));
    var s6 := AtWork(empty, Writing(0, 0, text[..n]), {});
    assert text[0..n] == text[..n];
    assert Apply(job, s5, Read(0, n)) == s6;
    events := OneMoreStep(job, 1, events, s6, Write(0, 1));
    WriteExtends(text, 0, 1);
    assert text[..0] == [] && text[0..1] == text[..1] && text[..n][..1] == text[..1];
    files := empty[Dest(job, 0) := text[..1]];
    assert Apply(job, s6, Write(0, 1)) == AtWork(files, Closing(0, 0), {0});
  }

  /** The rest of a run whose worker is done with its file. */
  lemma WindUp(job: Job, events: seq<Event>, files: Files, copied: nat, failed: set<nat>)
      returns (all: seq<Event>, s: State)
    requires OneFile(job) && Reached(job, 1, events, AtWork(files, Closing(0, copied), failed))
    ensures Reached(job, 1, all, s) && s.main.Finished? && s.total == copied && s.files == files && s.failed == failed
    ensures Written(all) == Written(events) && events <= all
  {
    hide Run, Written, WriteAt;
    var s7 := AtWork(files, Closing(0, copied), failed);
    all := OneMoreStep(job, 1, events, s7, AddStatistics(0));
    var s8 := s7.(workers := [Ready], processed := [0], total := copied);
    assert Apply(job, s7, AddStatistics(0)) == s8;
    all, s := Leaves(job, all, s8);
  }

  lemma Leaves(job: Job, events: seq<Event>, s8: State) returns (all: seq<Event>, s: State)
    requires OneFile(job) && Reached(job, 1, events, s8) && s8.workers == [Ready] && s8.next == 1
    requires s8.done && s8.main.Joining? && !s8.terminate
    ensures Reached(job, 1, all, s) && s == s8.(workers := [Gone], main := Finished) && Written(all) == Written(events)
    ensures events <= all
  {
    hide Run, Written, WriteAt;
    all := OneMoreStep(job, 1, events, s8, Lock(0));
    var s9 := s8.(workers := [Left]);
    assert Apply(job, s8, Lock(0)) == s9;
    all := OneMoreStep(job, 1, all, s9, Arrive(0));
    var s10 := s9.(workers := [Gone]);
    assert Apply(job, s9, Arrive(0)) == s10;
    all := OneMoreStep(job, 1, all, s10, MainJoins);
    s := s10.(main := Finished);
    assert Apply(job, s10, MainJoins) == s;
  }

  /** A read of the first two bytes and a write that gets one of them through: the byte is in the
      destination and not in the total. */
  lemma ShortWriteUncounted(job: Job) returns (events: seq<Event>, s: State)
    requires OneFile(job)
    ensures Reached(job, 1, events, s) && s.main.Finished? && s.total == 0 && Written(events) == 1
    ensures Dest(job, 0) in s.files && s.files[Dest(job, 0)] == Content(job, 0)[..1]
  {
    var files: Files;
    events, files := OneByteWritten(job);
    events, s := WindUp(job, events, files, 0, {0});
  }

  /** A read that fails at once leaves an empty destination. */
  lemma FailedReadLeavesEmpty(job: Job) returns (events: seq<Event>, s: State)
    requires OneFile(job)
    ensures Reached(job, 1, events, s) && s.main.Finished? && s.failed == {0} && s.total == 0
    ensures s.files == job.before[Dest(job, 0) := []]
  {
    hide Run, Written, WriteAt;
    events := FileOpened(job);
    var files := job.before[Dest(job, 0) := []];
    var s5 := AtWork(files, Copying(0, 0), {});
    events := OneMoreStep(job, 1, events, s5, ReadFails(0));
    assert Apply(job, s5, ReadFails(0)) == AtWork(files, Closing(0, 0), {0});
    events, s := WindUp(job, events, files, 0, {0});
  }

  /** An open that fails, of the source although it is there or of the destination, leaves all files as
      they were. */
  lemma FailedOpenLeavesFiles(job: Job, ofSource: bool) returns (events: seq<Event>, s: State)
    requires OneFile(job)
    ensures Reached(job, 1, events, s) && s.main.Finished? && s.failed == {0} && s.files == job.before
  {
    hide Run, Written, WriteAt;
    events := FileClaimed(job);
    var s3 := AtWork(job.before, Opening(0), {});
    var s8 := s3.(workers := [Ready], processed := [0], failed := {0});
    if ofSource {
      events := OneMoreStep(job, 1, events, s3, OpenSource(0, false));
      assert Apply(job, s3, OpenSource(0, false)) == s8;
    } else {
      events := OneMoreStep(job, 1, events, s3, OpenSource(0, true));
      var s4 := AtWork(job.before, Truncating(0), {});
      assert Apply(job, s3, OpenSource(0, true)) == s4;
      events := OneMoreStep(job, 1, events, s4, OpenDest(0, false));
      assert Apply(job, s4, OpenDest(0, false)) == s8;
    }
    events, s := Leaves(job, events, s8);
  }

  /** A file of up to 4096 bytes can be copied by one read and one write. */
  lemma CopiedAtOnce(job: Job) returns (events: seq<Event>, s: State)
    requires OneFile(job) && |Content(job, 0)| <= 4096
    ensures Reached(job, 1, events, s) && s.main.Finished? && s.failed == {} && Read(0, |Content(job, 0)|) in events
    ensures s.files == job.before[Dest(job, 0) := Content(job, 0)] && s.total == |Content(job, 0)|
  {
    hide Run, Written, WriteAt;
    var text := Content(job, 0);
    var n := |text|;
    var empty := job.before[Dest(job, 0) := []];
    var full := job.before[Dest(job, 0) := text];
    events := FileOpened(job);
    var s5 := AtWork(empty, Copying(0, 0), {});
    events := OneMoreStep(job, 1, events, s5, Read(0, n));
    var upTo := events;
    assert text[0..n] == text && text[..n] == text;
    var s6 := AtWork(empty, Writing(0, 0, text), {});
    assert Apply(job, s5, Read(0, n)) == s6;
    events := OneMoreStep(job, 1, events, s6, Write(0, n));
    WriteExtends(text, 0, n);
    assert text[..0] == [];
    var s7 := AtWork(full, Copying(0, n), {});
    assert empty[Dest(job, 0) := text] == full;
    assert Apply(job, s6, Write(0, n)) == s7;
    events := OneMoreStep(job, 1, events, s7, Read(0, 0));
    assert Apply(job, s7, Read(0, 0)) == AtWork(full, Closing(0, n), {});
    assert upTo <= events;
    events, s := WindUp(job, events, full, n, {});
    assert upTo <= events && events[|upTo| - 1] == Read(0, n);
  }

  lemma NothingWritten(job: Job, workers: nat)
    ensures Reached(job, workers, [], Init(job, workers)) && Written([]) == 0
  {
  }

  lemma OneMoreStep(job: Job, workers: nat, events: seq<Event>, s: State, e: Event) returns (more: seq<Event>)
    requires Reached(job, workers, events, s) && Enabled(job, s, e)
    ensures more == events + [e] && Reached(job, workers, more, Apply(job, s, e))
    ensures Written(more) == Written(events) + if e.Write? then e.count else 0
  {
    more := events + [e];
    ReachedMore(job, workers, events, s, e);
    assert more[..|events|] == events;
    hide Enabled, Apply, Run;
  }

  /** What WriteAt leaves: the data where it was written, the old bytes elsewhere, zeros in a gap. */
  lemma WriteAtBytes(file: Bytes, offset: nat, data: Bytes, i: nat)
    requires i < |WriteAt(file, offset, data)|
    ensures |WriteAt(file, offset, data)| == if |file| > offset + |data| then |file| else offset + |data|
    ensures WriteAt(file, offset, data)[i] ==
      if offset <= i < offset + |data| then data[i - offset] else if i < |file| then file[i] else 0
  {
  }

  /* ---- Waiting and reading, over every run ---- */

  function Locks(events: seq<Event>): nat {
    if events == [] then 0
    else Locks(events[..|events| - 1]) + if events[|events| - 1].Lock? then 1 else 0
  }

  function Wakes(events: seq<Event>): nat {
    if events == [] then 0
    else Wakes(events[..|events| - 1]) + if events[|events| - 1].Wake? then 1 else 0
  }

  function IsReady(w: Worker): int { if w.Ready? then 1 else 0 }

  function IsBorn(w: Worker): int { if w.Unborn? then 0 else 1 }

  /** Turns at the lock taken and to come, less what brought workers there. */
  ghost function Turns(s: State): int {
    Sum(s.workers, IsReady) - Sum(s.workers, IsBorn) - |s.processed| - if s.done then |s.workers| else 0
  }

  lemma TurnTaken(job: Job, s: State, e: Event)
    requires Phases(job, s) && Enabled(job, s, e) && (e.Lock? ==> |job.tasks| >= s.next)
    ensures Turns(Apply(job, s, e)) + (if e.Lock? then 1 else 0) <= Turns(s) + if e.Wake? then 1 else 0
  {
    hide WriteAt, Sum;
    var t := Apply(job, s, e);
    if Who(e).Some? {
      var i := Who(e).value;
      StepStaysHome(job, s, e);
      SumUpdate(s.workers, i, t.workers[i], IsReady);
      SumUpdate(s.workers, i, t.workers[i], IsBorn);
    } else if e == SetDone {
      SumAtMost(t.workers, IsReady, 1);
      SumNonNegative(s.workers, IsReady);
      SumSame(t.workers, s.workers, IsBorn);
    }
  }

  lemma {:induction false} TurnsCounted(job: Job, workers: nat, events: seq<Event>, s: State)
    requires Reached(job, workers, events, s)
    ensures Locks(events) + Turns(s) <= Wakes(events)
  {
    if events == [] {
      SumAtMost(s.workers, IsReady, 0);
      SumNonNegative(s.workers, IsBorn);
    } else {
      var before := events[..|events| - 1];
      var u := Run(job, Init(job, workers), before).value;
      TurnsCounted(job, workers, before, u);
      ReachedCounts(job, workers, before, u);
      TurnTaken(job, u, events[|events| - 1]);
      hide Enabled, Apply, Turns, Init, BarrierHolds;
    }
  }

  /** No worker spins: it locks the mutex once when it is started, once when loading ends, once after
      each file it finished with, and once for each time it was woken. */
  lemma NoBusyWaiting(job: Job, workers: nat, events: seq<Event>, s: State)
    requires Reached(job, workers, events, s)
    ensures Locks(events) <= workers + |s.processed| + Wakes(events) + if s.done then workers else 0
  {
    TurnsCounted(job, workers, events, s);
    ReachedCounts(job, workers, events, s);
    SumNonNegative(s.workers, IsReady);
    SumAtMost(s.workers, IsBorn, 1);
    hide Run, Sum;
  }

  /** No read asks for more than 4096 bytes. */
  lemma {:induction false} ReadsFitBuffer(job: Job, workers: nat, events: seq<Event>, s: State)
    requires Reached(job, workers, events, s)
    ensures forall e :: e in events && e.Read? ==> e.count <= 4096
  {
    if events != [] {
      var before, last := events[..|events| - 1], events[|events| - 1];
      ReadsFitBuffer(job, workers, before, Run(job, Init(job, workers), before).value);
      assert events == before + [last];
      hide Apply, Init;
    }
  }

  /** A worker with nothing to do sleeps, and can wake on its own while main is still starting others. */
  lemma WakesOnItsOwn(job: Job, workers: nat) returns (events: seq<Event>, s: State)
    requires job.tasks == [] && workers >= 1
    ensures Reached(job, workers, events, s) && events == [Spawn(0), Lock(0), Wake(0), Lock(0)]
    ensures !s.done && s.workers[0].Asleep?
  {
    hide Run, Written;
    NothingWritten(job, workers);
    var s0 := Init(job, workers);
    events := OneMoreStep(job, workers, [], s0, Spawn(0));
    var s1 := Goto(s0, 0, Ready);
    events := OneMoreStep(job, workers, events, s1, Lock(0));
    var s2 := Goto(s1, 0, Asleep);
    assert Apply(job, s1, Lock(0)) == s2;
    events := OneMoreStep(job, workers, events, s2, Wake(0));
    var s3 := Goto(s2, 0, Ready);
    events := OneMoreStep(job, workers, events, s3, Lock(0));
    s := Goto(s3, 0, Asleep);
    assert Apply(job, s3, Lock(0)) == s;
  }
}
