/** For any list of tasks, also one whose sources and destinations overlap: no reached state is
    stuck, every run after main has announced the end of loading is finite, and every reached state
    can be completed without a failure but that of a source that is not there. */
module CopierTermination {
  import opened Folds
  import opened DirectoryTree
  import opened Copier
  import opened CopierSafety
  import opened CopierTheorems

  /* ---- No file outgrows the longest one there was ---- */

  /** The size of the longest file. */
  ghost function Longest(files: Files): nat
    decreases |files|
  {
    if files == map[] then 0
    else
      var path :| path in files;
      var rest := Longest(files - {path});
      if |files[path]| > rest then |files[path]| else rest
  }

  lemma {:induction false} LongestIsLongest(files: Files)
    ensures AllFilesUpTo(files, Longest(files))
    decreases |files|
  {
    if files != map[] {
      var path :| path in files && Longest(files) ==
        if |files[path]| > Longest(files - {path}) then |files[path]| else Longest(files - {path});
      LongestIsLongest(files - {path});
      forall other | other in files
        ensures |files[other]| <= Longest(files)
      {
        assert other == path || other in files - {path};
      }
    }
  }

  ghost predicate AllFilesUpTo(files: Files, m: nat) {
    forall path :: path in files ==> |files[path]| <= m
  }

  /** What a worker has open is there, and what it copies lies within m bytes. */
  ghost predicate WorkerBound(job: Job, files: Files, w: Worker, m: nat) {
    match w
    case Opening(k) => k < |job.tasks|
    case Truncating(k) => k < |job.tasks| && Source(job, k) in files
    case Copying(k, offset) =>
      k < |job.tasks| && Source(job, k) in files && Dest(job, k) in files && offset <= m
    case Writing(k, offset, chunk) =>
      && k < |job.tasks| && Source(job, k) in files && Dest(job, k) in files
      && chunk != [] && offset + |chunk| <= m
    case _ => true
  }

  ghost predicate Bounded(job: Job, s: State, m: nat) {
    && AllFilesUpTo(s.files, m)
    && (forall path :: path in job.before ==> path in s.files)
    && (forall i :: 0 <= i < |s.workers| ==> WorkerBound(job, s.files, s.workers[i], m))
  }

  /** A step at most adds a file, and writes within the bound. */
  lemma FilesKept(job: Job, s: State, e: Event, m: nat)
    requires AllFilesUpTo(s.files, m) && Enabled(job, s, e)
    requires Who(e).Some? ==> WorkerBound(job, s.files, s.workers[Who(e).value], m)
    ensures AllFilesUpTo(Apply(job, s, e).files, m)
    ensures forall path :: path in s.files ==> path in Apply(job, s, e).files
  {
    if e.Write? {
      var w := s.workers[e.i];
      WriteWithin(s.files[Dest(job, w.k)], w.offset, w.chunk[..e.count], m);
    }
    hide WriteAt;
  }

  lemma WriteWithin(file: Bytes, offset: nat, data: Bytes, m: nat)
    requires |file| <= m && offset + |data| <= m
    ensures |WriteAt(file, offset, data)| <= m
  {
  }

  lemma OwnBound(job: Job, s: State, e: Event, m: nat)
    requires AllFilesUpTo(s.files, m) && s.next <= |job.tasks| && Enabled(job, s, e) && Who(e).Some?
    requires WorkerBound(job, s.files, s.workers[Who(e).value], m)
    ensures WorkerBound(job, Apply(job, s, e).files, Apply(job, s, e).workers[Who(e).value], m)
  {
    hide WriteAt;
  }

  lemma BoundedKept(job: Job, s: State, e: Event, m: nat)
    requires Bounded(job, s, m) && s.next <= |job.tasks| && Enabled(job, s, e)
    ensures Bounded(job, Apply(job, s, e), m)
  {
    var t := Apply(job, s, e);
    FilesKept(job, s, e, m);
    if Who(e).Some? {
      OwnBound(job, s, e, m);
      StepStaysHome(job, s, e);
      hide Apply, Enabled, AllFilesUpTo;
    } else {
      SameOrReady(job, s, e);
      hide Apply, Enabled, AllFilesUpTo;
    }
    forall i | 0 <= i < |t.workers|
      ensures WorkerBound(job, t.files, t.workers[i], m)
    {
      assert WorkerBound(job, s.files, s.workers[i], m);
    }
  }

  /** Main's steps leave a worker as it is or wake it. */
  lemma SameOrReady(job: Job, s: State, e: Event)
    requires Enabled(job, s, e) && Who(e).None?
    ensures |Apply(job, s, e).workers| == |s.workers|
    ensures forall i :: 0 <= i < |s.workers| ==>
              Apply(job, s, e).workers[i] == s.workers[i] || Apply(job, s, e).workers[i].Ready?
  {
  }

  /** What every reached state has, whatever the tasks. */
  ghost predicate Steady(job: Job, s: State) {
    Bookkeeping(job, s) && Bounded(job, s, Longest(job.before))
  }

  lemma SteadyKept(job: Job, s: State, e: Event)
    requires Steady(job, s) && Enabled(job, s, e)
    ensures Steady(job, Apply(job, s, e))
  {
    hide Longest, Bounded, Phases, BarrierHolds, Apply, Enabled;
    BookkeepingKept(job, s, e);
    BoundedKept(job, s, e, Longest(job.before));
    hide Bookkeeping;
  }

  lemma {:induction false} SteadyOverRuns(job: Job, s: State, events: seq<Event>)
    requires Steady(job, s) && Run(job, s, events).Some?
    ensures Steady(job, Run(job, s, events).value)
  {
    hide Steady, Enabled, Apply;
    if events != [] {
      var before := events[..|events| - 1];
      SteadyOverRuns(job, s, before);
      SteadyKept(job, Run(job, s, before).value, events[|events| - 1]);
    }
  }

  lemma ReachedSteady(job: Job, workers: nat, events: seq<Event>, s: State)
    requires Reached(job, workers, events, s)
    ensures Steady(job, s)
  {
    InitInv(job, workers);
    LongestIsLongest(job.before);
    hide Longest;
    SteadyOverRuns(job, Init(job, workers), events);
  }

  /* ---- The measure ---- */

  /** Steps a worker has ahead of it, each byte counted twice: read and written. */
  function Rank(m: nat): Worker -> int {
    (w: Worker) =>
      match w
      case Opening(_) => 7 + 2 * m
      case Truncating(_) => 6 + 2 * m
      case Copying(_, offset) => 5 + 2 * (m - offset)
      case Writing(_, offset, _) => 4 + 2 * (m - offset)
      case Closing(_, _) => 4
      case Left => 2
      case AtBarrier => 1
      case Gone => 0
      case _ => 3
  }

  function MainRank(m: Main): nat {
    match m
    case Spawning => 4
    case BeforeBarrier => 3
    case MainAtBarrier => 2
    case Joining => 1
    case Finished => 0
  }

  /** Work in the files nobody has claimed. */
  function Unclaimed(tasks: nat, m: nat): nat {
    if tasks == 0 then 0 else 5 + 2 * m + Unclaimed(tasks - 1, m)
  }

  ghost function Measure(job: Job, s: State): int {
    var m := Longest(job.before);
    var unclaimed := if s.next < |job.tasks| then |job.tasks| - s.next else 0;
    Unclaimed(unclaimed, m) + Sum(s.workers, Rank(m)) + MainRank(s.main)
  }

  lemma MeasureNonNegative(job: Job, s: State)
    requires Steady(job, s)
    ensures Measure(job, s) >= 0
  {
    hide Longest;
    var m := Longest(job.before);
    forall i | 0 <= i < |s.workers|
      ensures 0 <= Rank(m)(s.workers[i])
    {
      assert WorkerBound(job, s.files, s.workers[i], m);
    }
    SumNonNegative(s.workers, Rank(m));
  }

  lemma WorkerRankDrops(job: Job, s: State, e: Event, m: nat)
    requires s.done && Enabled(job, s, e) && Who(e).Some? && !e.Lock? && !e.Spawn?
    requires AllFilesUpTo(s.files, m) && WorkerBound(job, s.files, s.workers[Who(e).value], m)
    requires !s.workers[Who(e).value].Asleep?
    ensures Rank(m)(Apply(job, s, e).workers[Who(e).value]) < Rank(m)(s.workers[Who(e).value])
    ensures Apply(job, s, e).next == s.next && Apply(job, s, e).main == s.main && Apply(job, s, e).done
  {
    hide WriteAt;
  }

  lemma LockRank(job: Job, s: State, i: nat, m: nat)
    requires s.done && s.next <= |job.tasks| && Enabled(job, s, Lock(i))
    ensures var t := Apply(job, s, Lock(i));
            && s.next <= t.next <= |job.tasks| && t.main == s.main && t.done
            && Rank(m)(t.workers[i]) + Unclaimed(|job.tasks| - t.next, m)
             < Rank(m)(s.workers[i]) + Unclaimed(|job.tasks| - s.next, m)
  {
  }

  lemma MainRankDrops(job: Job, s: State, e: Event)
    requires s.done && !s.main.Spawning? && Enabled(job, s, e) && Who(e).None? && e != Signal
    ensures var t := Apply(job, s, e);
            && MainRank(t.main) < MainRank(s.main)
            && t.workers == s.workers && t.next == s.next && t.done
  {
  }

  lemma NobodySleeps(job: Job, s: State, e: Event)
    requires Bookkeeping(job, s) && s.done && Enabled(job, s, e)
    ensures Apply(job, s, e).done
    ensures forall i :: 0 <= i < |Apply(job, s, e).workers| ==> !Apply(job, s, e).workers[i].Asleep?
  {
    PhasesKept(job, s, e);
    hide Enabled, ClaimsOnce, BarrierHolds, WriteAt;
  }

  lemma StepLowers(job: Job, s: State, e: Event)
    requires Steady(job, s) && s.done && Enabled(job, s, e) && e != Signal
    ensures Measure(job, Apply(job, s, e)) < Measure(job, s)
  {
    hide Longest, Sum, Apply, BarrierHolds, Unclaimed, Rank;
    var m, t := Longest(job.before), Apply(job, s, e);
    if Who(e).Some? {
      var i := Who(e).value;
      StepStaysHome(job, s, e);
      SumUpdate(s.workers, i, t.workers[i], Rank(m));
      if e.Lock? {
        LockRank(job, s, i, m);
      } else {
        assert WorkerBound(job, s.files, s.workers[i], m);
        WorkerRankDrops(job, s, e, m);
      }
    } else {
      MainRankDrops(job, s, e);
    }
  }

  /** In every reached state after `done` every step but a signal brings the end nearer, and leaves
      no worker asleep. */
  lemma StepsTowardsTheEnd(job: Job, workers: nat, events: seq<Event>, s: State, e: Event)
    requires Reached(job, workers, events, s) && s.done && Enabled(job, s, e) && e != Signal
    ensures 0 <= Measure(job, Apply(job, s, e)) < Measure(job, s) && Apply(job, s, e).done
    ensures forall i :: 0 <= i < |Apply(job, s, e).workers| ==> !Apply(job, s, e).workers[i].Asleep?
  {
    ReachedSteady(job, workers, events, s);
    SteadyKept(job, s, e);
    MeasureNonNegative(job, Apply(job, s, e));
    StepLowers(job, s, e);
    NobodySleeps(job, s, e);
    hide Bookkeeping, Bounded, Apply, Enabled, Measure, Run;
  }

  function CountSteps(events: seq<Event>): nat {
    if events == [] then 0
    else CountSteps(events[..|events| - 1]) + if events[|events| - 1] == Signal then 0 else 1
  }

  lemma {:induction false} FiniteFrom(job: Job, s: State, more: seq<Event>, t: State)
    requires Steady(job, s) && s.done && Run(job, s, more) == Some(t)
    ensures t.done && CountSteps(more) + Measure(job, t) <= Measure(job, s)
  {
    hide Measure, Steady, Enabled, Apply;
    if more != [] {
      var before, last := more[..|more| - 1], more[|more| - 1];
      var u := Run(job, s, before).value;
      FiniteFrom(job, s, before, u);
      SteadyOverRuns(job, s, before);
      if last == Signal {
        SignalKeepsMeasure(job, u);
      } else {
        StepLowers(job, u, last);
        StaysDone(job, u, last);
      }
    }
  }

  lemma StaysDone(job: Job, s: State, e: Event)
    requires s.done && Enabled(job, s, e)
    ensures Apply(job, s, e).done
  {
    hide WriteAt;
  }

  lemma SignalKeepsMeasure(job: Job, s: State)
    ensures Enabled(job, s, Signal) && Measure(job, Apply(job, s, Signal)) == Measure(job, s)
    ensures Apply(job, s, Signal).done == s.done
  {
  }

  /** After `done` a run has at most as many steps as the measure says, signals aside. */
  lemma RunsAreFinite(job: Job, workers: nat, events: seq<Event>, s: State, more: seq<Event>, t: State)
    requires Reached(job, workers, events, s) && s.done && Run(job, s, more) == Some(t)
    ensures CountSteps(more) <= Measure(job, s)
  {
    hide Measure, Steady;
    ReachedSteady(job, workers, events, s);
    FiniteFrom(job, s, more, t);
    SteadyOverRuns(job, s, more);
    MeasureNonNegative(job, t);
  }

  /* ---- Progress ---- */

  /** A step without a signal in which no call falls short, and none fails but the opening of a
      source that is missing. */
  ghost predicate Healthy(job: Job, s: State, e: Event) {
    && Enabled(job, s, e) && e != Signal && !e.ReadFails?
    && (e.OpenSource? ==> (e.ok <==> Source(job, s.workers[e.i].k) in s.files)) && (e.OpenDest? ==> e.ok)
    && (e.Write? ==> e.count == |s.workers[e.i].chunk|)
  }

  /** The next step of a worker that is neither asleep nor waiting for others. */
  lemma NextStep(job: Job, s: State, i: nat, m: nat) returns (e: Event)
    requires i < |s.workers| && WorkerBound(job, s.files, s.workers[i], m)
    requires var w := s.workers[i]; w.Ready? || w.Left? || Claims(w)
    ensures Healthy(job, s, e)
  {
    match s.workers[i]
    case Opening(k) => e := OpenSource(i, Source(job, k) in s.files);
    case Truncating(_) => e := OpenDest(i, true);
    case Copying(k, offset) =>
      var size := |s.files[Source(job, k)]|;
      e := Read(i, if offset >= size then 0 else if size - offset > BUFFER_SIZE then BUFFER_SIZE else size - offset);
    case Writing(_, _, chunk) => e := Write(i, |chunk|);
    case Closing(_, _) => e := AddStatistics(i);
    case Left => e := Arrive(i);
    case _ => e := Lock(i);
  }

  lemma SomeStep(job: Job, s: State) returns (e: Event)
    requires Steady(job, s) && !s.main.Finished?
    ensures Healthy(job, s, e)
    ensures !s.done ==> (e == SetDone || e.Spawn?)
  {
    hide Longest;
    AllArrived(s.workers);
    hide Sum, ClaimsOnce;
    if !s.done {
      if i: nat :| i < |s.workers| && s.workers[i].Unborn? {
        e := Spawn(i);
      } else {
        e := SetDone;
      }
    } else if i: nat :| i < |s.workers| && !s.workers[i].AtBarrier? && !s.workers[i].Gone? {
      assert WorkerBound(job, s.files, s.workers[i], Longest(job.before));
      hide Bounded, BarrierHolds;
      e := NextStep(job, s, i, Longest(job.before));
      hide Healthy, WorkerBound;
    } else if s.main.BeforeBarrier? {
      e := MainArrives;
    } else if s.main.MainAtBarrier? {
      e := MainPasses;
    } else if i: nat :| i < |s.workers| && s.workers[i].AtBarrier? {
      e := Pass(i);
    } else {
      e := MainJoins;
    }
  }

  /** In every reached state until main has joined, some step is enabled in which no call fails but
      the opening of a source that is not there. */
  lemma NeverStuck(job: Job, workers: nat, events: seq<Event>, s: State) returns (e: Event)
    requires Reached(job, workers, events, s) && !s.main.Finished?
    ensures Healthy(job, s, e)
  {
    ReachedSteady(job, workers, events, s);
    e := SomeStep(job, s);
  }

  /** Indices whose source was not among the files. */
  ghost predicate Missing(job: Job, ks: set<nat>) {
    forall k :: k in ks ==> k < |job.tasks| && Source(job, k) !in job.before
  }

  lemma HealthyKeeps(job: Job, s: State, e: Event)
    requires Healthy(job, s, e) && forall path :: path in job.before ==> path in s.files
    ensures Apply(job, s, e).terminate == s.terminate
    ensures s.failed <= Apply(job, s, e).failed && Missing(job, Apply(job, s, e).failed - s.failed)
  {
    hide WriteAt;
  }

  /** How many steps the completion may take: those that start workers first. */
  ghost function StepsLeft(job: Job, s: State): (int, int) {
    (if s.done then 0 else 1 + Sum(s.workers, IsUnborn), if s.done then Measure(job, s) else 0)
  }

  function IsUnborn(w: Worker): int { if w.Unborn? then 1 else 0 }

  lemma Launches(job: Job, s: State, e: Event)
    requires !s.done && Enabled(job, s, e) && (e == SetDone || e.Spawn?)
    ensures Apply(job, s, e).done || Sum(Apply(job, s, e).workers, IsUnborn) < Sum(s.workers, IsUnborn)
    ensures Sum(s.workers, IsUnborn) >= 0 && Sum(Apply(job, s, e).workers, IsUnborn) >= 0
  {
    SumNonNegative(s.workers, IsUnborn);
    SumNonNegative(Apply(job, s, e).workers, IsUnborn);
    if e.Spawn? {
      SumUpdate(s.workers, e.i, Ready, IsUnborn);
    }
    hide Sum;
  }

  /** One healthy step nearer the end. */
  lemma OneStepOn(job: Job, s: State) returns (e: Event)
    requires Steady(job, s) && !s.main.Finished?
    ensures Healthy(job, s, e) && Steady(job, Apply(job, s, e))
    ensures var u := Apply(job, s, e);
            && 0 <= StepsLeft(job, s).0 && 0 <= StepsLeft(job, u).0
            && 0 <= StepsLeft(job, s).1 && 0 <= StepsLeft(job, u).1
            && (StepsLeft(job, u).0 < StepsLeft(job, s).0
                || (StepsLeft(job, u).0 == StepsLeft(job, s).0 && StepsLeft(job, u).1 < StepsLeft(job, s).1))
            && u.terminate == s.terminate && s.failed <= u.failed && Missing(job, u.failed - s.failed)
  {
    e := SomeStep(job, s);
    SteadyKept(job, s, e);
    HealthyKeeps(job, s, e);
    MeasureNonNegative(job, s);
    MeasureNonNegative(job, Apply(job, s, e));
    if s.done {
      StepLowers(job, s, e);
      StaysDone(job, s, e);
    } else {
      Launches(job, s, e);
    }
    hide Bookkeeping, Bounded, Measure, Apply, Enabled, Missing, Sum;
  }

  lemma {:induction false} Completion(job: Job, s: State) returns (more: seq<Event>, t: State)
    requires Steady(job, s)
    ensures Run(job, s, more) == Some(t) && t.main.Finished? && t.terminate == s.terminate
    ensures s.failed <= t.failed && Missing(job, t.failed - s.failed)
    decreases StepsLeft(job, s).0, StepsLeft(job, s).1
  {
    hide Steady, StepsLeft;
    if s.main.Finished? {
      more, t := [], s;
    } else {
      var e := OneStepOn(job, s);
      var u := Apply(job, s, e);
      var rest: seq<Event>;
      rest, t := Completion(job, u);
      hide Apply;
      assert t.failed - s.failed <= (t.failed - u.failed) + (u.failed - s.failed);
      RunConcat(job, s, e, u, rest);
      more := [e] + rest;
    }
  }

  /** From every reached state a run in which only sources that are not there fail reaches the end of
      main. */
  lemma CanFinish(job: Job, workers: nat, events: seq<Event>, s: State) returns (more: seq<Event>, t: State)
    requires Reached(job, workers, events, s)
    ensures Run(job, s, more) == Some(t) && t.main.Finished? && t.terminate == s.terminate
    ensures s.failed <= t.failed && Missing(job, t.failed - s.failed)
  {
    ReachedSteady(job, workers, events, s);
    more, t := Completion(job, s);
  }

  lemma {:induction false} RunConcat(job: Job, s: State, e: Event, u: State, rest: seq<Event>)
    requires Enabled(job, s, e) && Apply(job, s, e) == u
    ensures Run(job, s, [e] + rest) == Run(job, u, rest)
  {
    hide Enabled, Apply;
    var all := [e] + rest;
    if rest == [] {
      assert all == [e] && all[..0] == [];
      assert Run(job, s, []) == Some(s);
    } else {
      assert all[..|all| - 1] == [e] + rest[..|rest| - 1];
      RunConcat(job, s, e, u, rest[..|rest| - 1]);
    }
  }
}
