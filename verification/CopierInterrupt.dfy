/** What a signal does to the copier: from then on no worker claims a file, and each finishes at most
    the one in its hand. */
module CopierInterrupt {
  import opened Folds
  import opened DirectoryTree
  import opened Copier
  import opened CopierSafety
  import opened CopierTheorems
  import opened CopierTermination

  lemma StepAfterSignal(job: Job, s: State, e: Event)
    requires Enabled(job, s, e)
    ensures e == Signal || s.terminate ==> Apply(job, s, e).terminate
    ensures s.terminate || !e.Lock? ==> Apply(job, s, e).next == s.next && Apply(job, s, e).claimedBy == s.claimedBy
    ensures s.next <= Apply(job, s, e).next <= s.next + 1
    ensures s.processed <= Apply(job, s, e).processed
  {
    hide WriteAt;
  }

  lemma {:induction false} RunAfterSignal(
      job: Job, workers: nat, before: seq<Event>, u: State, post: seq<Event>, t: State)
    requires Reached(job, workers, before + [Signal], u) && Reached(job, workers, before + [Signal] + post, t)
    ensures t.terminate && t.next == u.next && t.claimedBy == u.claimedBy && u.processed <= t.processed
  {
    hide Enabled, Apply, Init;
    if post == [] {
      assert before + [Signal] + post == before + [Signal];
      assert (before + [Signal])[..|before|] == before;
      StepAfterSignal(job, Run(job, Init(job, workers), before).value, Signal);
    } else {
      var events := before + [Signal] + post;
      var shorter := post[..|post| - 1];
      assert events[..|events| - 1] == before + [Signal] + shorter;
      var v := Run(job, Init(job, workers), before + [Signal] + shorter).value;
      RunAfterSignal(job, workers, before, u, shorter, v);
      StepAfterSignal(job, v, events[|events| - 1]);
    }
  }

  /** After a signal, in every interleaving and for any list of tasks: the flag stays set, no further
      index is claimed, and what is still finished with was in some worker's hand at the signal, each
      such index once. */
  lemma AfterSignal(job: Job, workers: nat, before: seq<Event>, u: State, post: seq<Event>, t: State)
    requires Reached(job, workers, before + [Signal], u) && Reached(job, workers, before + [Signal] + post, t)
    ensures t.terminate && t.next == u.next && t.claimedBy == u.claimedBy
    ensures u.processed <= t.processed && Distinct(t.processed)
    ensures forall k :: k in t.processed && k !in u.processed ==>
              exists i :: 0 <= i < |u.workers| && Claims(u.workers[i]) && u.workers[i].k == k
  {
    RunAfterSignal(job, workers, before, u, post, t);
    ReachedCounts(job, workers, before + [Signal], u);
    ReachedCounts(job, workers, before + [Signal] + post, t);
    hide Run, Phases, BarrierHolds;
    forall k | k in t.processed && k !in u.processed
      ensures exists i :: 0 <= i < |u.workers| && Claims(u.workers[i]) && u.workers[i].k == k
    {
      assert k < u.next;
    }
  }

  lemma ReachedMore(job: Job, workers: nat, events: seq<Event>, s: State, e: Event)
    requires Reached(job, workers, events, s) && Enabled(job, s, e)
    ensures Reached(job, workers, events + [e], Apply(job, s, e))
  {
    hide Enabled, Apply, Init;
    assert (events + [e])[..|events|] == events;
  }

  lemma {:induction false} ReachedAll(
      job: Job, workers: nat, events: seq<Event>, s: State, more: seq<Event>, t: State)
    requires Reached(job, workers, events, s) && Run(job, s, more) == Some(t)
    ensures Reached(job, workers, events + more, t)
  {
    hide Enabled, Apply, Init;
    if more == [] {
      assert events + more == events;
    } else {
      var shorter := more[..|more| - 1];
      ReachedAll(job, workers, events, s, shorter, Run(job, s, shorter).value);
      assert (events + more)[..|events + more| - 1] == events + shorter;
    }
  }

  /** Healthy steps until n indices are claimed. */
  lemma {:induction false} ClaimSome(job: Job, workers: nat, events: seq<Event>, s: State, n: nat)
      returns (all: seq<Event>, t: State)
    requires Reached(job, workers, events, s) && workers > 0 && !s.terminate && s.next <= n <= |job.tasks|
    ensures Reached(job, workers, all, t) && t.next == n && !t.terminate
    decreases StepsLeft(job, s).0, StepsLeft(job, s).1
  {
    hide StepsLeft, Steady, Run;
    if s.next == n {
      all, t := events, s;
    } else {
      if s.main.Finished? {
        FirstTasksProcessedOnce(job, workers, events, s);
      }
      ReachedSteady(job, workers, events, s);
      var e := OneStepOn(job, s);
      StepAfterSignal(job, s, e);
      ReachedMore(job, workers, events, s, e);
      var u := Apply(job, s, e);
      hide Apply, Enabled, Reached;
      all, t := ClaimSome(job, workers, events + [e], u, n);
    }
  }

  /** Whatever the tasks, a run can be interrupted after any number of claims, and then ends with
      exactly these. */
  lemma InterruptedAnywhere(job: Job, workers: nat, n: nat) returns (events: seq<Event>, t: State)
    requires workers > 0 && n <= |job.tasks|
    ensures Reached(job, workers, events, t) && t.main.Finished? && t.terminate && t.next == n
  {
    var first, s := ClaimSome(job, workers, [], Init(job, workers), n);
    assert Enabled(job, s, Signal);
    ReachedMore(job, workers, first, s, Signal);
    var u := Apply(job, s, Signal);
    var rest: seq<Event>;
    rest, t := CanFinish(job, workers, first + [Signal], u);
    events := first + [Signal] + rest;
    ReachedAll(job, workers, first + [Signal], u, rest, t);
    RunAfterSignal(job, workers, first, u, rest, t);
    hide Run, Reached;
  }
}
