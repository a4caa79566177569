/** More about every run of the accept gate: which descriptors are open, how long a handler keeps its
    slot, and what a shutdown does. */
module GateRuns {
  import opened Folds
  import opened AcceptGate

  /* ---- Open descriptors ---- */

  ghost predicate HeldInSlot(s: State, i: nat, socket: int) {
    i < |s.sockets| == |s.handlers| && s.sockets[i] == socket && !s.handlers[i].Releasing?
  }

  ghost predicate Held(s: State, socket: int) {
    socket in MainSocket(s.main) || exists i: nat :: HeldInSlot(s, i, socket)
  }

  ghost predicate OpenIsHeld(s: State) {
    && (forall socket :: socket in s.open ==> Held(s, socket))
    && (forall socket :: socket in s.open ==> socket in s.accepted && socket != 0)
  }

  lemma SlotStays(s: State, e: Event, i: nat, socket: int)
    requires Inv(s) && Enabled(s, e) && HeldInSlot(s, i, socket) && socket in Apply(s, e).open && socket != 0
    ensures HeldInSlot(Apply(s, e), i, socket)
  {
    InvMatches(s);
    hide Inv, Apply, HeldInSlot, HandlersMatchSlots;
    if e.MainLock? {
      MainKeepsSlots(s, i, socket);
    } else if e.Release? {
      ReleaseKeepsSlots(s, e, i, socket);
    } else if OfHandler(e) {
      HandlersKeepSlots(s, e, i, socket);
    } else {
      OthersKeepSlots(s, e, i, socket);
    }
  }

  lemma MainKeepsSlots(s: State, i: nat, socket: int)
    requires Inv(s) && Enabled(s, MainLock) && HeldInSlot(s, i, socket) && socket != 0
    ensures HeldInSlot(Apply(s, MainLock), i, socket)
  {
    hide Sum, Gather, AssignFree, SocketsAddUp;
    if s.active != |s.handlers| {
      var j := FillSlot(s.sockets, s.main.socket);
    }
  }

  lemma ReleaseKeepsSlots(s: State, e: Event, i: nat, socket: int)
    requires e.Release? && Enabled(s, e) && HeldInSlot(s, i, socket)
    ensures HeldInSlot(Apply(s, e), i, socket)
  {
  }

  lemma HandlersKeepSlots(s: State, e: Event, i: nat, socket: int)
    requires HandlersMatchSlots(s) && OfHandler(e) && Enabled(s, e) && HeldInSlot(s, i, socket)
    requires socket in Apply(s, e).open
    ensures HeldInSlot(Apply(s, e), i, socket)
  {
  }

  lemma OthersKeepSlots(s: State, e: Event, i: nat, socket: int)
    requires OfMain(e) && Enabled(s, e) && HeldInSlot(s, i, socket)
    ensures HeldInSlot(Apply(s, e), i, socket)
  {
  }

  lemma MainsSocketStays(s: State, e: Event, socket: int)
    requires Inv(s) && Enabled(s, e) && socket in MainSocket(s.main)
    ensures Held(Apply(s, e), socket)
  {
    if e.MainLock? {
      MainsSocketPlaced(s, socket);
    } else {
      MainsSocketHeld(s, e, socket);
    }
    hide Inv, Enabled, Apply, MainSocket;
  }

  lemma MainsSocketPlaced(s: State, socket: int)
    requires Inv(s) && Enabled(s, MainLock) && socket in MainSocket(s.main)
    ensures Held(Apply(s, MainLock), socket)
  {
    hide Sum, Gather, AssignFree, SocketsAddUp;
    if s.active != |s.handlers| {
      var i := FillSlot(s.sockets, s.main.socket);
      assert HeldInSlot(Apply(s, MainLock), i, socket);
    }
  }

  lemma MainsSocketHeld(s: State, e: Event, socket: int)
    requires Enabled(s, e) && e != MainLock && socket in MainSocket(s.main)
    ensures socket in MainSocket(Apply(s, e).main)
  {
  }

  lemma OpenIsHeldKept(s: State, e: Event)
    requires Inv(s) && OpenIsHeld(s) && Enabled(s, e)
    ensures OpenIsHeld(Apply(s, e))
  {
    hide Inv;
    var t := Apply(s, e);
    forall socket | socket in t.open
      ensures Held(t, socket) && socket in t.accepted && socket != 0
    {
      OpenBefore(s, e, socket);
      if socket in s.open && socket !in MainSocket(s.main) {
        var i: nat :| HeldInSlot(s, i, socket);
        SlotStays(s, e, i, socket);
      } else if socket in MainSocket(s.main) {
        MainsSocketStays(s, e, socket);
      }
      hide Apply, Enabled;
    }
  }

  lemma OpenBefore(s: State, e: Event, socket: int)
    requires Enabled(s, e) && socket in Apply(s, e).open
    ensures socket in s.open || (e == Accept(socket) && socket in MainSocket(Apply(s, e).main) && socket != 0)
    ensures socket in s.accepted || e == Accept(socket) ==> socket in Apply(s, e).accepted
  {
    hide AssignFree, WakeAll;
  }

  lemma {:induction false} OpenIsHeldOverRuns(pool: nat, events: seq<Event>, s: State)
    requires Reached(pool, events, s)
    ensures OpenIsHeld(s)
  {
    if events != [] {
      var before := events[..|events| - 1];
      var u := Run(Init(pool), before).value;
      OpenIsHeldOverRuns(pool, before, u);
      RunKeeps(pool, before);
      OpenIsHeldKept(u, events[|events| - 1]);
      hide Enabled, Apply, Inv, OpenIsHeld;
    }
  }

  /** No descriptor is forgotten: an open one is in main's hand or in a slot whose handler is not past
      its session. */
  lemma NoDescriptorForgotten(pool: nat, events: seq<Event>, s: State, socket: int)
    requires Reached(pool, events, s) && socket in s.open
    ensures |s.sockets| == |s.handlers| == pool
    ensures ((s.main.Holding? || s.main.MainAsleep?) && s.main.socket == socket)
         || exists i :: 0 <= i < pool && s.sockets[i] == socket && !s.handlers[i].Releasing?
  {
    hide Run;
    OpenIsHeldOverRuns(pool, events, s);
    RunKeeps(pool, events);
    InvMatches(s);
    hide Inv;
    if socket !in MainSocket(s.main) {
      var i: nat :| HeldInSlot(s, i, socket);
    }
  }

  predicate CloseBy(e: Event, i: nat) {
    e == ReadFails(i) || e == OrderFails(i) || e == Hangup(i)
  }

  lemma {:induction false} ClosedUntilAccepted(s: State, more: seq<Event>, socket: int)
    requires socket !in s.open && Run(s, more).Some? && Accept(socket) !in more
    ensures socket !in Run(s, more).value.open
  {
    if more != [] {
      var before := more[..|more| - 1];
      assert forall e :: e in before ==> e in more;
      ClosedUntilAccepted(s, before, socket);
      hide AssignFree, WakeAll;
    }
  }

  /** A failed read, a failed order and the end of a session close the socket, and it stays closed until
      accept gives the same number again. */
  lemma ClosedStaysClosed(pool: nat, events: seq<Event>, s: State, i: nat, e: Event, more: seq<Event>, t: State)
    requires Reached(pool, events, s) && i < |s.handlers| && CloseBy(e, i) && Enabled(s, e)
    requires Follows(Apply(s, e), more, t) && Accept(s.handlers[i].socket) !in more
    ensures s.handlers[i].socket !in t.open
  {
    ClosedUntilAccepted(Apply(s, e), more, s.handlers[i].socket);
  }

  /** Nothing else closes a socket: without such a step, and without a close from outside, every
      accepted one is open, also that of a handler that could not send its greeting. */
  lemma {:induction false} OpenUnlessClosed(pool: nat, events: seq<Event>, s: State)
    requires Reached(pool, events, s)
    requires forall e :: e in events ==> !e.ReadFails? && !e.OrderFails? && !e.Hangup? && !e.ClosedElsewhere?
    ensures forall socket :: socket in s.accepted <==> socket in s.open
  {
    if events != [] {
      var before := events[..|events| - 1];
      assert forall e :: e in before ==> e in events;
      OpenUnlessClosed(pool, before, Run(Init(pool), before).value);
      assert events[|events| - 1] in events;
      hide AssignFree, WakeAll, Init;
    }
  }

  /* ---- Handlers at work ---- */

  ghost predicate AtWork(s: State, i: nat, socket: int) {
    && i < |s.handlers| == |s.sockets| && s.sockets[i] == socket
    && (s.handlers[i] == Serving(socket) || s.handlers[i] == Releasing(socket))
  }

  predicate Releases(e: Event, i: nat) {
    e.Release? && e.i == i
  }

  lemma WorkGoesOn(s: State, e: Event, i: nat, socket: int)
    requires Inv(s) && Enabled(s, e) && AtWork(s, i, socket) && !Releases(e, i)
    ensures AtWork(Apply(s, e), i, socket)
  {
    hide Sum, Gather, AssignFree, SocketsAddUp, Apply, AtWork;
    if e.MainLock? {
      MainLeavesWork(s, i, socket);
    } else if e.Release? {
      ReleaseLeavesWork(s, e, i, socket);
    } else if OfHandler(e) {
      HandlersWork(s, e, i, socket);
    } else {
      OthersLeaveWork(s, e, i, socket);
    }
  }

  lemma MainLeavesWork(s: State, i: nat, socket: int)
    requires Inv(s) && Enabled(s, MainLock) && AtWork(s, i, socket)
    ensures AtWork(Apply(s, MainLock), i, socket)
  {
    hide Sum, Gather, AssignFree, SocketsAddUp;
    if s.active != |s.handlers| {
      var j := FillSlot(s.sockets, s.main.socket);
    }
  }

  lemma ReleaseLeavesWork(s: State, e: Event, i: nat, socket: int)
    requires e.Release? && Enabled(s, e) && AtWork(s, i, socket) && e.i != i
    ensures AtWork(Apply(s, e), i, socket)
  {
  }

  lemma HandlersWork(s: State, e: Event, i: nat, socket: int)
    requires OfHandler(e) && Enabled(s, e) && AtWork(s, i, socket)
    ensures AtWork(Apply(s, e), i, socket)
  {
  }

  lemma OthersLeaveWork(s: State, e: Event, i: nat, socket: int)
    requires OfMain(e) && Enabled(s, e) && AtWork(s, i, socket)
    ensures AtWork(Apply(s, e), i, socket)
  {
  }

  lemma {:induction false} WorkGoesOnUntilRelease(s: State, i: nat, socket: int, more: seq<Event>, t: State)
    requires Inv(s) && AtWork(s, i, socket) && Follows(s, more, t) && forall e :: e in more ==> !Releases(e, i)
    ensures AtWork(t, i, socket) && Inv(t)
  {
    if more != [] {
      var before, last := more[..|more| - 1], more[|more| - 1];
      var u := Run(s, before).value;
      assert forall e :: e in before ==> e in more;
      assert last in more;
      WorkGoesOnUntilRelease(s, i, socket, before, u);
      WorkGoesOn(u, last, i, socket);
      StepKeeps(u, last);
      hide Enabled, Apply, Inv, AtWork;
    }
  }

  /** A handler that has read the numbers of its session keeps socket and slot, also when an order cannot
      be read, until it gives the slot back. */
  lemma SlotKeptUntilRelease(pool: nat, events: seq<Event>, s: State, i: nat, more: seq<Event>, t: State)
    requires Reached(pool, events, s) && i < |s.handlers| == |s.sockets|
    requires s.handlers[i].Reading? && Enabled(s, ReadOk(i)) && Follows(Apply(s, ReadOk(i)), more, t)
    requires forall e :: e in more ==> !Releases(e, i)
    ensures AtWork(t, i, s.handlers[i].socket)
  {
    RunKeeps(pool, events);
    StepKeeps(s, ReadOk(i));
    WorkGoesOnUntilRelease(Apply(s, ReadOk(i)), i, s.handlers[i].socket, more, t);
  }

  /* ---- Sessions ---- */

  function Count(events: seq<Event>, counted: Event -> bool): nat {
    if events == [] then 0
    else Count(events[..|events| - 1], counted) + if counted(events[|events| - 1]) then 1 else 0
  }

  function IsReading(h: Handler): int { if h.Reading? then 1 else 0 }

  function IsServing(h: Handler): int { if h.Serving? then 1 else 0 }

  function IsReleasing(h: Handler): int { if h.Releasing? then 1 else 0 }

  function One(b: bool): int { if b then 1 else 0 }

  lemma SessionStep(s: State, e: Event)
    requires Enabled(s, e)
    ensures Sum(Apply(s, e).handlers, IsReading) == Sum(s.handlers, IsReading) + One(e.SendOk?) - One(e.ReadOk? || e.ReadFails?)
    ensures Sum(Apply(s, e).handlers, IsServing) == Sum(s.handlers, IsServing) + One(e.ReadOk?) - One(e.Hangup?)
    ensures Sum(Apply(s, e).handlers, IsReleasing) == Sum(s.handlers, IsReleasing) + One(e.Hangup?) - One(e.Release?)
  {
    hide Sum, AssignFree;
    var t := Apply(s, e);
    if OfHandler(e) {
      OneHandlerChanges(s, e);
      SumUpdate(s.handlers, e.i, t.handlers[e.i], IsReading);
      SumUpdate(s.handlers, e.i, t.handlers[e.i], IsServing);
      SumUpdate(s.handlers, e.i, t.handlers[e.i], IsReleasing);
    } else if e.Release? {
      ReleaseStep(s, e);
    } else {
      SumSame(t.handlers, s.handlers, IsReading);
      SumSame(t.handlers, s.handlers, IsServing);
      SumSame(t.handlers, s.handlers, IsReleasing);
    }
  }

  lemma OneHandlerChanges(s: State, e: Event)
    requires OfHandler(e) && Enabled(s, e)
    ensures e.i < |s.handlers| == |Apply(s, e).handlers|
    ensures Apply(s, e).handlers == s.handlers[e.i := Apply(s, e).handlers[e.i]]
  {
  }

  lemma ReleaseStep(s: State, e: Event)
    requires e.Release? && Enabled(s, e)
    ensures Sum(Apply(s, e).handlers, IsReading) == Sum(s.handlers, IsReading)
    ensures Sum(Apply(s, e).handlers, IsServing) == Sum(s.handlers, IsServing)
    ensures Sum(Apply(s, e).handlers, IsReleasing) == Sum(s.handlers, IsReleasing) - 1
  {
    hide Sum;
    var ready := s.handlers[e.i := HandlerReady];
    SumUpdate(s.handlers, e.i, HandlerReady, IsReading);
    SumUpdate(s.handlers, e.i, HandlerReady, IsServing);
    SumUpdate(s.handlers, e.i, HandlerReady, IsReleasing);
    if e.woken.HandlerThread? {
      SumSame(Apply(s, e).handlers, ready, IsReading);
      SumSame(Apply(s, e).handlers, ready, IsServing);
      SumSame(Apply(s, e).handlers, ready, IsReleasing);
    }
  }

  /** Sessions are neither lost nor doubled: each greeting sent is followed by one reading of the
      numbers, each successful one by one end of session, each of these by one release, but for those
      still under way. */
  lemma {:induction false} SessionsAddUp(pool: nat, events: seq<Event>, s: State)
    requires Reached(pool, events, s)
    ensures Count(events, (e: Event) => e.SendOk?)
         == Count(events, (e: Event) => e.ReadOk? || e.ReadFails?) + Sum(s.handlers, IsReading)
    ensures Count(events, (e: Event) => e.ReadOk?) == Count(events, (e: Event) => e.Hangup?) + Sum(s.handlers, IsServing)
    ensures Count(events, (e: Event) => e.Hangup?) == Count(events, (e: Event) => e.Release?) + Sum(s.handlers, IsReleasing)
  {
    if events == [] {
      NobodyAtWork(s.handlers);
    } else {
      var before := events[..|events| - 1];
      var u := Run(Init(pool), before).value;
      SessionsAddUp(pool, before, u);
      SessionStep(u, events[|events| - 1]);
      hide Enabled, Apply, Sum, Init;
    }
  }

  lemma {:induction false} NobodyAtWork(handlers: seq<Handler>)
    requires forall i :: 0 <= i < |handlers| ==> handlers[i] == HandlerReady
    ensures Sum(handlers, IsReading) == Sum(handlers, IsServing) == Sum(handlers, IsReleasing) == 0
  {
    if handlers != [] {
      assert forall i :: 0 <= i < |handlers[1..]| ==> handlers[1..][i] == handlers[i + 1];
      NobodyAtWork(handlers[1..]);
    }
  }

  function SleepsHandler(h: Handler): int { if h.HandlerAsleep? then 1 else 0 }

  function Sleepers(s: State): int {
    Sum(s.handlers, SleepsHandler) + One(s.main.MainAsleep?)
  }

  /** The signal of a release wakes one of those waiting, main or a handler, when there is one. */
  lemma ReleaseWakesOne(pool: nat, events: seq<Event>, s: State, i: nat, w: Woken)
    requires Reached(pool, events, s) && Enabled(s, Release(i, w))
    ensures Sleepers(s) >= 0
    ensures Sleepers(Apply(s, Release(i, w))) == if Sleepers(s) > 0 then Sleepers(s) - 1 else 0
  {
    SumNonNegative(s.handlers, SleepsHandler);
    var ready := s.handlers[i := HandlerReady];
    SumUpdate(s.handlers, i, HandlerReady, SleepsHandler);
    match w
    case Nobody => NoneAsleep(s.handlers);
    case MainThread =>
    case HandlerThread(j) =>
      SumUpdate(ready, j, HandlerReady, SleepsHandler);
      SumNonNegative(ready[j := HandlerReady], SleepsHandler);
      RunKeeps(pool, events);
      ReleaseFindsMain(s, i, w);
  }

  lemma {:induction false} NoneAsleep(handlers: seq<Handler>)
    requires forall i :: 0 <= i < |handlers| ==> !handlers[i].HandlerAsleep?
    ensures Sum(handlers, SleepsHandler) == 0
  {
    if handlers != [] {
      assert forall i :: 0 <= i < |handlers[1..]| ==> handlers[1..][i] == handlers[i + 1];
      NoneAsleep(handlers[1..]);
    }
  }

  /* ---- Shutdown ---- */

  /** Nothing new is begun: whoever is at work was so before, on the same socket, and nobody has fallen
      asleep. */
  ghost predicate OnlyWindsDown(u: State, t: State) {
    && !t.running && |t.handlers| == |u.handlers|
    && forall i :: 0 <= i < |u.handlers| ==>
         && (HasSocket(t.handlers[i]) ==> HasSocket(u.handlers[i]) && t.handlers[i].socket == u.handlers[i].socket)
         && (t.handlers[i].HandlerAsleep? ==> u.handlers[i].HandlerAsleep?)
  }

  lemma WindsDown(u: State, s: State, e: Event)
    requires OnlyWindsDown(u, s) && Enabled(s, e)
    ensures OnlyWindsDown(u, Apply(s, e))
  {
    hide AssignFree;
  }

  lemma {:induction false} WindsDownOverRuns(u: State, more: seq<Event>, t: State)
    requires !u.running && Follows(u, more, t)
    ensures OnlyWindsDown(u, t)
  {
    if more != [] {
      var before := more[..|more| - 1];
      WindsDownOverRuns(u, before, Run(u, before).value);
      WindsDown(u, Run(u, before).value, more[|more| - 1]);
      hide Enabled, Apply, OnlyWindsDown;
    }
  }

  /** After a shutdown no handler begins with another socket, and none falls asleep. */
  lemma AfterShutdown(pool: nat, events: seq<Event>, s: State, more: seq<Event>, t: State)
    requires Reached(pool, events, s) && Follows(Apply(s, Shutdown), more, t)
    ensures OnlyWindsDown(Apply(s, Shutdown), t)
  {
    WindsDownOverRuns(Apply(s, Shutdown), more, t);
  }

  function StepsToLeave(h: Handler): int {
    match h
    case HandlerGone => 0
    case HandlerReady => 1
    case Greeting(_) => 1
    case HandlerAsleep => 2
    case Reading(_) => 2
    case Releasing(_) => 2
    case Serving(_) => 3
  }

  /** A step that takes handler i nearer to leaving. */
  lemma OneLeaves(s: State, i: nat) returns (e: Event)
    requires Inv(s) && !s.running && i < |s.handlers| && !s.handlers[i].HandlerGone?
    requires s.handlers[i].HandlerAsleep? || forall j :: 0 <= j < |s.handlers| ==> !s.handlers[j].HandlerAsleep?
    ensures Enabled(s, e) && !Apply(s, e).running && |Apply(s, e).handlers| == |s.handlers|
    ensures var after := Apply(s, e).handlers;
            after == s.handlers[i := after[i]] && StepsToLeave(after[i]) < StepsToLeave(s.handlers[i])
  {
    hide Sum, Gather, SocketsAddUp;
    match s.handlers[i]
    case HandlerReady => e := HandlerLock(i);
    case HandlerAsleep => e := HandlerWake(i);
    case Greeting(_) => e := SendFails(i);
    case Reading(_) => e := ReadFails(i);
    case Serving(_) => e := Hangup(i);
    case Releasing(_) => e := Release(i, if s.main.MainAsleep? then MainThread else Nobody);
  }

  lemma Nearer(before: seq<Handler>, after: seq<Handler>, i: nat)
    requires i < |before| == |after| && after == before[i := after[i]]
    requires StepsToLeave(after[i]) < StepsToLeave(before[i])
    ensures Sum(after, StepsToLeave) < Sum(before, StepsToLeave)
  {
    SumUpdate(before, i, after[i], StepsToLeave);
  }

  lemma HandlersLeave(s: State) returns (more: seq<Event>, t: State)
    requires Inv(s) && !s.running
    ensures Follows(s, more, t) && forall i :: 0 <= i < |t.handlers| ==> t.handlers[i].HandlerGone?
    ensures s.main.MainGone? ==> t.main.MainGone?
  {
    more, t := [], s;
    hide Inv, Enabled, Apply, StepsToLeave;
    while exists i :: 0 <= i < |t.handlers| && !t.handlers[i].HandlerGone?
      invariant Follows(s, more, t) && Inv(t) && !t.running && (s.main.MainGone? ==> t.main.MainGone?)
      decreases Sum(t.handlers, StepsToLeave)
    {
      var i: nat :| i < |t.handlers| && !t.handlers[i].HandlerGone?;
      if j: nat :| j < |t.handlers| && t.handlers[j].HandlerAsleep? {
        i := j;
      }
      var e := OneLeaves(t, i);
      Nearer(t.handlers, Apply(t, e).handlers, i);
      StepsNonNegative(t.handlers);
      OneMore(s, more, t, e);
      StepKeeps(t, e);
      if t.main.MainGone? {
        GoneIsGone(t, e);
      }
      more, t := more + [e], Apply(t, e);
    }
  }

  lemma GoneIsGone(s: State, e: Event)
    requires Enabled(s, e) && s.main.MainGone?
    ensures Apply(s, e).main.MainGone?
  {
    hide WakeAll;
  }

  lemma {:induction false} FollowsOn(s: State, a: seq<Event>, u: State, b: seq<Event>, t: State)
    requires Follows(s, a, u) && Follows(u, b, t)
    ensures Follows(s, a + b, t)
  {
    hide Enabled, Apply;
    if b == [] {
      assert a + b == a;
    } else {
      var shorter := b[..|b| - 1];
      FollowsOn(s, a, u, shorter, Run(u, shorter).value);
      assert (a + b)[..|a + b| - 1] == a + shorter;
    }
  }

  /** Main gets to the head of its loop, unless it waits in vain. */
  lemma MainComesRound(s: State) returns (more: seq<Event>, t: State)
    requires Inv(s) && !(MainWaits(s) && AllLost(s)) && !s.main.MainGone?
    ensures Follows(s, more, t) && t.main.Accepting?
  {
    FullMeansNoneFree(s.sockets);
    hide Sum, Gather, SocketsAddUp, AssignFree, Lost;
    if s.main.Accepting? {
      more, t := [], s;
    } else if MainWaits(s) {
      var i: nat :| i < |s.handlers| && !Lost(s, i);
      more, t := LetsMainOn(s, i);
    } else {
      OneMore(s, [], s, MainLock);
      more, t := [] + [MainLock], Apply(s, MainLock);
    }
  }

  /** After a shutdown main and all handlers can leave, unless main waits in vain for a slot; then
      handlers can, and main does not. */
  lemma EveryoneCanLeave(pool: nat, events: seq<Event>, s: State) returns (more: seq<Event>, t: State)
    requires Reached(pool, events, s) && !s.running
    ensures Follows(s, more, t) && forall i :: 0 <= i < |t.handlers| ==> t.handlers[i].HandlerGone?
    ensures t.main.MainGone? <==> !(MainWaits(s) && AllLost(s))
  {
    RunKeeps(pool, events);
    if MainWaits(s) && AllLost(s) {
      more, t := HandlersLeave(s);
      MainWaitsInVain(pool, events, s);
    } else {
      hide Inv, AllLost, Apply, Enabled, MainWaits;
      var a, u := MainGoes(s);
      var b: seq<Event>;
      b, t := HandlersLeave(u);
      FollowsOn(s, a, u, b, t);
      more := a + b;
    }
  }

  lemma MainGoes(s: State) returns (more: seq<Event>, t: State)
    requires Inv(s) && !s.running && !(MainWaits(s) && AllLost(s))
    ensures Follows(s, more, t) && t.main.MainGone? && Inv(t) && !t.running
  {
    if s.main.MainGone? {
      more, t := [], s;
    } else {
      var a, u := MainComesRound(s);
      WindsDownOverRuns(s, a, u);
      OneMore(s, a, u, MainLeaves);
      more, t := a + [MainLeaves], Apply(u, MainLeaves);
      hide Inv, AllLost, MainWaits;
      InvOverRuns(s, more, t);
      WindsDownOverRuns(s, more, t);
    }
  }

  lemma {:induction false} InvOverRuns(s: State, more: seq<Event>, t: State)
    requires Inv(s) && Follows(s, more, t)
    ensures Inv(t)
  {
    hide Inv, Enabled, Apply;
    if more != [] {
      var before := more[..|more| - 1];
      InvOverRuns(s, before, Run(s, before).value);
      StepKeeps(Run(s, before).value, more[|more| - 1]);
    }
  }

  lemma StepsNonNegative(handlers: seq<Handler>)
    ensures Sum(handlers, StepsToLeave) >= 0
  {
    SumNonNegative(handlers, StepsToLeave);
  }

  /** Main's section with a free slot, for a pool of one and for the second slot of two. */
  lemma FirstPlaced(running: bool, socket: int, open: set<int>, accepted: seq<int>)
    requires socket != 0
    ensures var s := State(running, [0], 0, Holding(socket), [HandlerReady], open, accepted, []);
            Apply(s, MainLock) == State(running, [socket], 1, Accepting, [HandlerReady], open, accepted, [])
  {
    AssignFreeAt([0], 0, socket);
    assert WakeAll([HandlerReady]) == [HandlerReady];
  }

  lemma OfTwoPlaced(i: nat, first: Handler, socket: int, open: set<int>, accepted: seq<int>)
    requires i < 2 && socket != 0 && !first.HandlerAsleep?
    ensures var sockets := if i == 0 then [0, 0] else [socket, 0];
            var s := State(true, sockets, i, Holding(socket), [first, HandlerReady], open, accepted, []);
            Apply(s, MainLock) ==
            State(true, sockets[i := socket], i + 1, Accepting, [first, HandlerReady], open, accepted, [])
  {
    AssignFreeAt(if i == 0 then [0, 0] else [socket, 0], i, socket);
    assert WakeAll([first, HandlerReady]) == [first, HandlerReady];
  }

  /** A connection can still be accepted after a shutdown; it gets a slot and nobody serves it. */
  lemma LateConnection() returns (events: seq<Event>, s: State)
    ensures Reached(1, events, s) && events == [Shutdown] + [Accept(5)] + [MainLock] + [HandlerLock(0)] + [MainLeaves]
    ensures s == State(false, [5], 1, MainGone, [HandlerGone], {5}, [5], [])
  {
    hide AssignFree, WakeAll;
    events, s := [], Init(1);
    assert s == State(true, [0], 0, Accepting, [HandlerReady], {}, [], []);
    hide Init;
    events, s := RunOn(1, events, s, Shutdown);
    hide Run;
    events, s := RunOn(1, events, s, Accept(5));
    assert s == State(false, [0], 0, Holding(5), [HandlerReady], {5}, [5], []);
    FirstPlaced(false, 5, {5}, [5]);
    events, s := RunOn(1, events, s, MainLock);
    events, s := RunOn(1, events, s, HandlerLock(0));
    assert s == State(false, [5], 1, Accepting, [HandlerGone], {5}, [5], []);
    events, s := RunOn(1, events, s, MainLeaves);
  }

  lemma TwoSlots(events: seq<Event>, s: State)
    requires events == [] && s == Init(2)
    ensures Reached(2, events, s) && s == State(true, [0, 0], 0, Accepting, [HandlerReady, HandlerReady], {}, [], [])
  {
  }

  lemma OneSession() returns (events: seq<Event>, s: State)
    ensures Reached(2, events, s)
    ensures s == State(true, [5, 0], 1, Accepting, [Serving(5), HandlerReady], {5}, [5], [])
  {
    events, s := [], Init(2);
    hide AssignFree, WakeAll;
    TwoSlots(events, s);
    hide Run, Init;
    events, s := RunOn(2, events, s, Accept(5));
    assert s == State(true, [0, 0], 0, Holding(5), [HandlerReady, HandlerReady], {5}, [5], []);
    OfTwoPlaced(0, HandlerReady, 5, {5}, [5]);
    events, s := RunOn(2, events, s, MainLock);
    assert s == State(true, [5, 0], 1, Accepting, [HandlerReady, HandlerReady], {5}, [5], []);
    events, s := RunOn(2, events, s, HandlerLock(0));
    assert s == State(true, [5, 0], 1, Accepting, [Greeting(5), HandlerReady], {5}, [5], []);
    events, s := RunOn(2, events, s, SendOk(0));
    events, s := RunOn(2, events, s, ReadOk(0));
  }

  /** A session whose order cannot be read goes on with its socket closed. When accept gives the number
      to the next client, two handlers use it at once. */
  lemma TwoHandlersOneSocket() returns (before: seq<Event>, events: seq<Event>, s: State)
    ensures Reached(2, events, s)
    ensures events == before + [OrderFails(0)] + [Accept(5)] + [MainLock] + [HandlerLock(1)]
    ensures s.handlers == [Serving(5), Greeting(5)] && s.sockets == [5, 5] && s.open == {5}
  {
    before, s := OneSession();
    hide Run, AssignFree, WakeAll;
    events, s := RunOn(2, before, s, OrderFails(0));
    assert s == State(true, [5, 0], 1, Accepting, [Serving(5), HandlerReady], {}, [5], []);
    events, s := RunOn(2, events, s, Accept(5));
    assert s == State(true, [5, 0], 1, Holding(5), [Serving(5), HandlerReady], {5}, [5, 5], []);
    OfTwoPlaced(1, Serving(5), 5, {5}, [5, 5]);
    events, s := RunOn(2, events, s, MainLock);
    assert s == State(true, [5, 5], 2, Accepting, [Serving(5), HandlerReady], {5}, [5, 5], []);
    events, s := RunOn(2, events, s, HandlerLock(1));
  }

  /** The signal handler closes the sockets in the slots, also those accepted before the last one. */
  lemma SignalClosesSlots() returns (events: seq<Event>, s: State)
    ensures Reached(1, events, s)
    ensures events == [Accept(5), MainLock, Accept(6), Shutdown, ClosedElsewhere(5)]
    ensures s.sockets == [5] && s.open == {6} && s.main == Holding(6)
  {
    events, s := OnePlaced();
    hide Run, AssignFree, WakeAll;
    events, s := RunOn(1, events, s, Accept(6));
    assert s == State(true, [5], 1, Holding(6), [HandlerReady], {5, 6}, [5, 6], []);
    events, s := RunOn(1, events, s, Shutdown);
    events, s := RunOn(1, events, s, ClosedElsewhere(5));
  }
}
