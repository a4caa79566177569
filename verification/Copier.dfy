/** The copying half of the copier (Assignment_04, and Assignment_05 with its barrier) as a step
    relation: workers claim loaded tasks under a mutex and copy files in chunks, every read, write
    and open able to fail or fall short, and a signal able to end the work at any time. */
module Copier {
  import opened Folds
  import opened DirectoryTree

  const BUFFER_SIZE := 4096

  /** What a run starts from: the loaded tasks, the files as they are, and whether main and the
      workers meet at a barrier. */
  datatype Job = Job(tasks: seq<FileTask>, before: Files, barrier: bool)

  datatype Worker =
    | Unborn
    | Ready                                              // about to lock the mutex
    | Asleep                                             // on the condition variable
    | Opening(k: nat)                                    // claimed task k
    | Truncating(k: nat)                                 // source open, destination not yet
    | Copying(k: nat, offset: nat)                       // about to read
    | Writing(k: nat, offset: nat, chunk: Bytes)         // about to write what was read
    | Closing(k: nat, copied: nat)                       // about to add to the statistics
    | Left                                               // out of the loop
    | AtBarrier
    | Gone

  datatype Main = Spawning | BeforeBarrier | MainAtBarrier | Joining | Finished

  datatype State = State(
    files: Files, next: nat, done: bool, terminate: bool, total: nat,
    main: Main, workers: seq<Worker>, arrived: nat,
    claimedBy: seq<nat>,     // who claimed each task index
    processed: seq<nat>,     // task indices in the order they were finished with
    failed: set<nat>)        // those given up because a call failed or fell short

  datatype Event =
    | Spawn(i: nat)
    | SetDone
    | MainArrives
    | MainPasses
    | MainJoins
    | Signal
    | Lock(i: nat)
    | Wake(i: nat)
    | OpenSource(i: nat, ok: bool)
    | OpenDest(i: nat, ok: bool)
    | Read(i: nat, count: nat)        // 0 at the end of the file
    | ReadFails(i: nat)
    | Write(i: nat, count: nat)       // how much of the chunk got through
    | AddStatistics(i: nat)
    | Arrive(i: nat)
    | Pass(i: nat)

  function Init(job: Job, workers: nat): State {
    State(job.before, 0, false, false, 0, Spawning, seq(workers, _ => Unborn), 0, [], [], {})
  }

  function Source(job: Job, k: nat): string
    requires k < |job.tasks|
  {
    job.tasks[k].src
  }

  function Dest(job: Job, k: nat): string
    requires k < |job.tasks|
  {
    job.tasks[k].dest
  }

  predicate Claims(w: Worker) {
    w.Opening? || w.Truncating? || w.Copying? || w.Writing? || w.Closing?
  }


  function Zeros(n: nat): Bytes {
    seq(n, _ => 0)
  }

  /** write at an offset: overwrites, extends, and fills a gap with zeros. */
  function WriteAt(file: Bytes, offset: nat, data: Bytes): Bytes {
    (if offset <= |file| then file[..offset] else file + Zeros(offset - |file|))
    + data
    + (if offset + |data| < |file| then file[offset + |data|..] else [])
  }

  ghost predicate Enabled(job: Job, s: State, e: Event) {
    match e
    case Spawn(i) => s.main.Spawning? && i < |s.workers| && s.workers[i].Unborn?
    case SetDone => s.main.Spawning? && forall i :: 0 <= i < |s.workers| ==> !s.workers[i].Unborn?
    case MainArrives => s.main.BeforeBarrier?
    case MainPasses => s.main.MainAtBarrier? && s.arrived == |s.workers| + 1
    case MainJoins => s.main.Joining? && forall i :: 0 <= i < |s.workers| ==> s.workers[i].Gone?
    case Signal => true
    case Lock(i) => i < |s.workers| && s.workers[i].Ready?
    case Wake(i) => i < |s.workers| && s.workers[i].Asleep?
    case OpenSource(i, ok) =>
      && i < |s.workers| && s.workers[i].Opening? && s.workers[i].k < |job.tasks|
      && (ok ==> Source(job, s.workers[i].k) in s.files)
    case OpenDest(i, _) => i < |s.workers| && s.workers[i].Truncating? && s.workers[i].k < |job.tasks|
    case Read(i, count) =>
      && i < |s.workers| && s.workers[i].Copying? && s.workers[i].k < |job.tasks|
      && Source(job, s.workers[i].k) in s.files
      && var source := s.files[Source(job, s.workers[i].k)];
      if s.workers[i].offset >= |source| then count == 0
      else 0 < count <= BUFFER_SIZE && s.workers[i].offset + count <= |source|
    case ReadFails(i) => i < |s.workers| && s.workers[i].Copying?
    case Write(i, count) =>
      && i < |s.workers| && s.workers[i].Writing? && s.workers[i].k < |job.tasks|
      && Dest(job, s.workers[i].k) in s.files && count <= |s.workers[i].chunk|
    case AddStatistics(i) => i < |s.workers| && s.workers[i].Closing?
    case Arrive(i) => i < |s.workers| && s.workers[i].Left?
    case Pass(i) => i < |s.workers| && s.workers[i].AtBarrier? && s.arrived == |s.workers| + 1
  }

  /** pthread_cond_broadcast by main. */
  function WakeAll(workers: seq<Worker>): seq<Worker> {
    seq(|workers|, i requires 0 <= i < |workers| => if workers[i].Asleep? then Ready else workers[i])
  }

  ghost function Goto(s: State, i: nat, w: Worker): State
    requires i < |s.workers|
  {
    s.(workers := s.workers[i := w])
  }

  /** The worker gives task k up. */
  ghost function GiveUp(s: State, i: nat, k: nat): State
    requires i < |s.workers|
  {
    Goto(s, i, Ready).(processed := s.processed + [k], failed := s.failed + {k})
  }

  ghost function Apply(job: Job, s: State, e: Event): State
    requires Enabled(job, s, e)
  {
    match e
    case Spawn(i) => Goto(s, i, Ready)
    case SetDone =>
      s.(done := true, workers := WakeAll(s.workers), main := if job.barrier then BeforeBarrier else Joining)
    case MainArrives => s.(arrived := s.arrived + 1, main := MainAtBarrier)
    case MainPasses => s.(main := Joining)
    case MainJoins => s.(main := Finished)
    case Signal => s.(terminate := true)
    case Lock(i) =>
      if s.terminate then Goto(s, i, Left)
      else if s.next >= |job.tasks| then Goto(s, i, if s.done then Left else Asleep)
      else Goto(s, i, Opening(s.next)).(next := s.next + 1, claimedBy := s.claimedBy + [i])
    case Wake(i) => Goto(s, i, Ready)
    case OpenSource(i, ok) =>
      var k := s.workers[i].k;
      if ok then Goto(s, i, Truncating(k)) else GiveUp(s, i, k)
    case OpenDest(i, ok) =>
      var k := s.workers[i].k;
      if ok then Goto(s, i, Copying(k, 0)).(files := s.files[Dest(job, k) := []]) else GiveUp(s, i, k)
    case Read(i, count) =>
      var w := s.workers[i];
      if count == 0 then Goto(s, i, Closing(w.k, w.offset))
      else Goto(s, i, Writing(w.k, w.offset, s.files[Source(job, w.k)][w.offset..w.offset + count]))
    case ReadFails(i) =>
      var w := s.workers[i];
      Goto(s, i, Closing(w.k, w.offset)).(failed := s.failed + {w.k})
    case Write(i, count) =>
      var w := s.workers[i];
      var t := s.(files := s.files[Dest(job, w.k) :=
                    WriteAt(s.files[Dest(job, w.k)], w.offset, w.chunk[..count])]);
      if count == |w.chunk| then Goto(t, i, Copying(w.k, w.offset + count))
      else Goto(t, i, Closing(w.k, w.offset)).(failed := s.failed + {w.k})
    case AddStatistics(i) =>
      var w := s.workers[i];
      Goto(s, i, Ready).(total := s.total + w.copied, processed := s.processed + [w.k])
    case Arrive(i) =>
      if job.barrier then Goto(s, i, AtBarrier).(arrived := s.arrived + 1) else Goto(s, i, Gone)
    case Pass(i) => Goto(s, i, Gone)
  }

  ghost function Run(job: Job, s: State, events: seq<Event>): Option<State> {
    if events == [] then Some(s) else
      match Run(job, s, events[..|events| - 1])
      case None => None
      case Some(t) =>
        var e := events[|events| - 1];
        if Enabled(job, t, e) then Some(Apply(job, t, e)) else None
  }

  /** Bytes of a task's source, as they were at the start. */
  function Content(job: Job, k: nat): Bytes {
    if k < |job.tasks| && job.tasks[k].src in job.before then job.before[job.tasks[k].src] else []
  }

  function Sizes(job: Job): nat -> int {
    (k: nat) => |Content(job, k)|
  }
}
