/** The accept gate (Server.c): main hands accepted sockets to handler slots. Main and every
    handler wait on one condition variable, and a released slot is announced by one signal. */
module AcceptGate {
  import opened Folds
  import ShopQueues

  datatype Main = Accepting | Holding(socket: int) | MainAsleep(socket: int) | MainGone

  /** With a socket a handler sends the greeting, reads the session's numbers, serves, and, with the
      socket closed, gives its slot back. */
  datatype Handler =
    | HandlerReady
    | HandlerAsleep
    | Greeting(socket: int)
    | Reading(socket: int)
    | Serving(socket: int)
    | Releasing(socket: int)
    | HandlerGone

  datatype State = State(
    running: bool,
    sockets: seq<int>,       // client_sockets, 0 for a free slot
    active: int,             // active_threads
    main: Main,
    handlers: seq<Handler>,
    open: set<int>,          // descriptors of accepted sockets not yet closed
    accepted: seq<int>,      // history of accept
    released: seq<int>)      // history of slot releases

  /** Whom the signal at a release reaches. */
  datatype Woken = Nobody | MainThread | HandlerThread(j: nat)

  datatype Event =
    | Accept(socket: int)
    | MainLock
    | MainWake
    | MainLeaves
    | HandlerLock(i: nat)
    | HandlerWake(i: nat)
    | SendOk(i: nat)
    | SendFails(i: nat)      // the handler leaves and keeps its slot
    | ReadOk(i: nat)
    | ReadFails(i: nat)      // the socket is closed; the handler starts over with the same slot
    | OrderFails(i: nat)     // the socket is closed in the order loop, and the loop goes on
    | Hangup(i: nat)
    | Release(i: nat, woken: Woken)
    | ClosedElsewhere(socket: int)   // by a courier or, at shutdown, by the signal handler
    | Shutdown

  function Init(pool: nat): State {
    State(true, seq(pool, _ => 0), 0, Accepting, seq(pool, _ => HandlerReady), {}, [], [])
  }

  ghost predicate Signal(s: State, w: Woken) {
    match w
    case Nobody => !s.main.MainAsleep? && forall i :: 0 <= i < |s.handlers| ==> !s.handlers[i].HandlerAsleep?
    case MainThread => s.main.MainAsleep?
    case HandlerThread(j) => j < |s.handlers| && s.handlers[j].HandlerAsleep?
  }

  ghost predicate At(s: State, i: nat) {
    i < |s.handlers|
  }

  /** accept returns a descriptor that is not in use, and never 0: descriptor 0 stays open. Using a
      closed descriptor fails; using an open one may. */
  ghost predicate Enabled(s: State, e: Event) {
    match e
    case Accept(socket) => s.main.Accepting? && socket != 0 && socket !in s.open
    case MainLock => s.main.Holding?
    case MainWake => s.main.MainAsleep?
    case MainLeaves => s.main.Accepting? && !s.running
    case HandlerLock(i) => At(s, i) && s.handlers[i].HandlerReady? && i < |s.sockets|
    case HandlerWake(i) => At(s, i) && s.handlers[i].HandlerAsleep?
    case SendOk(i) => At(s, i) && s.handlers[i].Greeting? && s.handlers[i].socket in s.open
    case SendFails(i) => At(s, i) && s.handlers[i].Greeting?
    case ReadOk(i) => At(s, i) && s.handlers[i].Reading? && s.handlers[i].socket in s.open
    case ReadFails(i) => At(s, i) && s.handlers[i].Reading?
    case OrderFails(i) => At(s, i) && s.handlers[i].Serving?
    case Hangup(i) => At(s, i) && s.handlers[i].Serving?
    case Release(i, w) => At(s, i) && s.handlers[i].Releasing? && i < |s.sockets| && Signal(s, w)
    case ClosedElsewhere(socket) => socket in s.accepted
    case Shutdown => true
  }

  /** The slot loop: the first free slot gets the socket. */
  function AssignFree(sockets: seq<int>, socket: int): seq<int> {
    if sockets == [] then []
    else if sockets[0] == 0 then [socket] + sockets[1..]
    else [sockets[0]] + AssignFree(sockets[1..], socket)
  }

  function WakeAll(handlers: seq<Handler>): seq<Handler> {
    seq(|handlers|, i requires 0 <= i < |handlers| =>
      if handlers[i].HandlerAsleep? then HandlerReady else handlers[i])
  }

  ghost function Apply(s: State, e: Event): State
    requires Enabled(s, e)
  {
    match e
    case Accept(socket) => s.(main := Holding(socket), open := s.open + {socket}, accepted := s.accepted + [socket])
    case MainLock =>
      var socket := s.main.socket;
      if s.active == |s.handlers| then s.(main := MainAsleep(socket))
      else s.(sockets := AssignFree(s.sockets, socket), active := s.active + 1, main := Accepting,
              handlers := WakeAll(s.handlers))
    case MainWake => s.(main := Holding(s.main.socket))
    case MainLeaves => s.(main := MainGone)
    case HandlerLock(i) =>
      var next :=
        if !s.running then HandlerGone
        else if s.sockets[i] == 0 then HandlerAsleep
        else Greeting(s.sockets[i]);
      s.(handlers := s.handlers[i := next])
    case HandlerWake(i) => s.(handlers := s.handlers[i := HandlerReady])
    case SendOk(i) => s.(handlers := s.handlers[i := Reading(s.handlers[i].socket)])
    case SendFails(i) => s.(handlers := s.handlers[i := HandlerGone])
    case ReadOk(i) => s.(handlers := s.handlers[i := Serving(s.handlers[i].socket)])
    case ReadFails(i) => s.(handlers := s.handlers[i := HandlerReady], open := s.open - {s.handlers[i].socket})
    case OrderFails(i) => s.(open := s.open - {s.handlers[i].socket})
    case Hangup(i) =>
      s.(handlers := s.handlers[i := Releasing(s.handlers[i].socket)], open := s.open - {s.handlers[i].socket})
    case Release(i, w) =>
      var t := s.(sockets := s.sockets[i := 0], active := s.active - 1,
                  handlers := s.handlers[i := HandlerReady], released := s.released + [s.handlers[i].socket]);
      (match w
       case Nobody => t
       case MainThread => t.(main := Holding(t.main.socket))
       case HandlerThread(j) => t.(handlers := t.handlers[j := HandlerReady]))
    case ClosedElsewhere(socket) => s.(open := s.open - {socket})
    case Shutdown => s.(running := false)
  }

  ghost function Run(s: State, events: seq<Event>): Option<State> {
    if events == [] then Some(s) else
      match Run(s, events[..|events| - 1])
      case None => None
      case Some(t) =>
        var e := events[|events| - 1];
        if Enabled(t, e) then Some(Apply(t, e)) else None
  }

  /** The slot loop of main, on the array. */
  method AssignSlot(sockets: array<int>, pool: nat, socket: int)
    requires pool <= sockets.Length
    modifies sockets
    ensures sockets[..pool] == AssignFree(old(sockets[..pool]), socket)
    ensures sockets[pool..] == old(sockets[pool..])
  {
    ghost var before := sockets[..pool];
    var i := 0;
    while i < pool
      invariant 0 <= i <= pool
      invariant sockets[..] == old(sockets[..])
      invariant forall k :: 0 <= k < i ==> sockets[k] != 0
    {
      if sockets[i] == 0 {
        AssignFreeAt(before, i, socket);
        sockets[i] := socket;
        assert sockets[..pool] == before[i := socket];
        return;
      }
      i := i + 1;
    }
    AssignFreeFull(before, socket);
  }

  lemma {:induction false} AssignFreeAt(sockets: seq<int>, i: nat, socket: int)
    requires i < |sockets| && sockets[i] == 0 && forall k :: 0 <= k < i ==> sockets[k] != 0
    ensures AssignFree(sockets, socket) == sockets[i := socket]
  {
    if i > 0 {
      assert forall k :: 0 <= k < |sockets[1..]| ==> sockets[1..][k] == sockets[k + 1];
      AssignFreeAt(sockets[1..], i - 1, socket);
    }
  }

  lemma {:induction false} AssignFreeFull(sockets: seq<int>, socket: int)
    requires forall k :: 0 <= k < |sockets| ==> sockets[k] != 0
    ensures AssignFree(sockets, socket) == sockets
  {
    if sockets != [] {
      assert forall k :: 0 <= k < |sockets[1..]| ==> sockets[1..][k] == sockets[k + 1];
      AssignFreeFull(sockets[1..], socket);
    }
  }

  /* ---- The invariant ---- */

  function Occupied(socket: int): int { if socket == 0 then 0 else 1 }

  function SlotSocket(socket: int): multiset<int> { if socket == 0 then multiset{} else multiset{socket} }

  function MainSocket(m: Main): multiset<int> {
    if m.Holding? || m.MainAsleep? then multiset{m.socket} else multiset{}
  }

  ghost predicate SlotsCounted(s: State) {
    && |s.sockets| == |s.handlers|
    && s.active == Sum(s.sockets, Occupied)
    && ((s.main.Holding? || s.main.MainAsleep?) ==> s.main.socket != 0)
  }

  predicate HasSocket(h: Handler) {
    h.Greeting? || h.Reading? || h.Serving? || h.Releasing?
  }

  ghost predicate HandlersMatchSlots(s: State) {
    && |s.sockets| == |s.handlers|
    && (forall i :: 0 <= i < |s.handlers| && s.handlers[i].HandlerAsleep? ==> s.sockets[i] == 0)
    && (forall i :: 0 <= i < |s.handlers| && HasSocket(s.handlers[i]) ==>
          s.sockets[i] == s.handlers[i].socket && s.sockets[i] != 0)
    && (forall i :: 0 <= i < |s.handlers| && s.running && s.handlers[i].HandlerGone? ==> s.sockets[i] != 0)
  }

  ghost predicate SocketsAddUp(s: State) {
    multiset(s.accepted) == MainSocket(s.main) + Gather(s.sockets, SlotSocket) + multiset(s.released)
  }

  ghost predicate Inv(s: State) {
    && SlotsCounted(s) && HandlersMatchSlots(s) && SocketsAddUp(s)
    && (s.main.MainAsleep? ==> s.active == |s.handlers|)
  }

  lemma {:induction false} FullMeansNoneFree(sockets: seq<int>)
    ensures Sum(sockets, Occupied) <= |sockets|
    ensures Sum(sockets, Occupied) == |sockets| <==> forall i :: 0 <= i < |sockets| ==> sockets[i] != 0
  {
    if sockets != [] {
      FullMeansNoneFree(sockets[1..]);
      assert forall i :: 0 <= i < |sockets[1..]| ==> sockets[1..][i] == sockets[i + 1];
      if Sum(sockets[1..], Occupied) == |sockets[1..]| {
        assert forall i :: 0 < i < |sockets| ==> sockets[i] == sockets[1..][i - 1];
      }
    }
  }

  lemma FirstFree(sockets: seq<int>) returns (i: nat)
    requires Sum(sockets, Occupied) != |sockets|
    ensures i < |sockets| && sockets[i] == 0 && forall k :: 0 <= k < i ==> sockets[k] != 0
  {
    if sockets[0] == 0 {
      i := 0;
    } else {
      var j := FirstFree(sockets[1..]);
      i := j + 1;
      assert forall k :: 0 < k < i ==> sockets[k] == sockets[1..][k - 1];
    }
  }

  /** Filling a slot adds one to the occupied slots and the socket to theirs. */
  lemma FillSlot(sockets: seq<int>, socket: int) returns (i: nat)
    requires Sum(sockets, Occupied) != |sockets| && socket != 0
    ensures i < |sockets| && sockets[i] == 0 && AssignFree(sockets, socket) == sockets[i := socket]
    ensures Sum(AssignFree(sockets, socket), Occupied) == Sum(sockets, Occupied) + 1
    ensures Gather(AssignFree(sockets, socket), SlotSocket) == Gather(sockets, SlotSocket) + multiset{socket}
  {
    i := FirstFree(sockets);
    AssignFreeAt(sockets, i, socket);
    SumUpdate(sockets, i, socket, Occupied);
    GatherGain(sockets, i, socket, SlotSocket);
  }

  lemma MainLockAddsUp(s: State)
    requires SlotsCounted(s) && SocketsAddUp(s) && Enabled(s, MainLock)
    ensures SocketsAddUp(Apply(s, MainLock))
  {
    hide Sum, Gather, AssignFree;
    if s.active != |s.handlers| {
      var _ := FillSlot(s.sockets, s.main.socket);
      FilledSlotAddsUp(s.accepted, s.main.socket, Gather(s.sockets, SlotSocket), s.released);
    }
  }

  lemma MainLockKeeps(s: State)
    requires Inv(s) && Enabled(s, MainLock)
    ensures Inv(Apply(s, MainLock))
  {
    hide Sum, Gather, AssignFree, SocketsAddUp;
    if s.active != |s.handlers| {
      var i := FillSlot(s.sockets, s.main.socket);
    }
    MainLockAddsUp(s);
  }

  lemma FilledSlotAddsUp(accepted: seq<int>, socket: int, slots: multiset<int>, released: seq<int>)
    requires multiset(accepted) == multiset{socket} + slots + multiset(released)
    ensures multiset(accepted) == multiset{} + (slots + multiset{socket}) + multiset(released)
  {
  }

  lemma ReleaseAddsUp(s: State, i: nat, w: Woken)
    requires HandlersMatchSlots(s) && SocketsAddUp(s) && Enabled(s, Release(i, w))
    ensures SocketsAddUp(Apply(s, Release(i, w)))
  {
    hide Sum, Gather;
    GatherLose(s.sockets, i, 0, SlotSocket);
    assert SlotSocket(s.sockets[i]) == multiset{s.handlers[i].socket};
    assert MainSocket(Apply(s, Release(i, w)).main) == MainSocket(s.main);
    hide HandlersMatchSlots, SlotSocket, MainSocket;
    SlotMoved(s.accepted, MainSocket(s.main), Gather(s.sockets[i := 0], SlotSocket), s.handlers[i].socket, s.released);
  }

  lemma SlotMoved(accepted: seq<int>, main: multiset<int>, slots: multiset<int>, socket: int, released: seq<int>)
    requires multiset(accepted) == main + (slots + multiset{socket}) + multiset(released)
    ensures multiset(accepted) == main + slots + multiset(released + [socket])
  {
  }

  lemma ReleaseFindsMain(s: State, i: nat, w: Woken)
    requires Inv(s) && Enabled(s, Release(i, w))
    ensures s.main.MainAsleep? ==> w == MainThread
  {
    FullMeansNoneFree(s.sockets);
    hide Sum, SocketsAddUp;
  }

  lemma ReleaseKeepsMatch(s: State, i: nat, w: Woken)
    requires HandlersMatchSlots(s) && Enabled(s, Release(i, w))
    ensures HandlersMatchSlots(Apply(s, Release(i, w)))
  {
  }

  lemma ReleaseKeeps(s: State, i: nat, w: Woken)
    requires Inv(s) && Enabled(s, Release(i, w))
    ensures Inv(Apply(s, Release(i, w)))
  {
    hide Sum, SocketsAddUp;
    ReleaseFindsMain(s, i, w);
    ReleaseAddsUp(s, i, w);
    ReleaseKeepsMatch(s, i, w);
    assert s.sockets[i] != 0 && |s.sockets| == |s.handlers|;
    hide HandlersMatchSlots;
    SumUpdate(s.sockets, i, 0, Occupied);
  }

  predicate OfHandler(e: Event) {
    || e.HandlerLock? || e.HandlerWake? || e.SendOk? || e.SendFails? || e.ReadOk? || e.ReadFails?
    || e.OrderFails? || e.Hangup?
  }

  /** A handler's steps between releases leave the slots alone. */
  lemma HandlerStepKeeps(s: State, e: Event)
    requires HandlersMatchSlots(s) && Enabled(s, e)
    requires OfHandler(e)
    ensures HandlersMatchSlots(Apply(s, e))
    ensures var t := Apply(s, e);
            && t.sockets == s.sockets && t.main == s.main && t.active == s.active && t.running == s.running
            && t.accepted == s.accepted && t.released == s.released && |t.handlers| == |s.handlers|
  {
  }

  /** Main's steps outside its section, and those of the shop's other threads. */
  predicate OfMain(e: Event) {
    e.Accept? || e.MainWake? || e.MainLeaves? || e.ClosedElsewhere? || e.Shutdown?
  }

  lemma MainStepKeeps(s: State, e: Event)
    requires Inv(s) && Enabled(s, e) && OfMain(e)
    ensures Inv(Apply(s, e))
  {
    hide Sum, Gather;
    MainStepMatches(s, e);
    hide HandlersMatchSlots;
  }

  lemma MainStepMatches(s: State, e: Event)
    requires HandlersMatchSlots(s) && Enabled(s, e) && OfMain(e)
    ensures HandlersMatchSlots(Apply(s, e)) && |Apply(s, e).handlers| == |s.handlers|
  {
  }

  lemma StepKeeps(s: State, e: Event)
    requires Inv(s) && Enabled(s, e)
    ensures Inv(Apply(s, e))
  {
    hide Sum, Gather, AssignFree;
    if e.MainLock? {
      MainLockKeeps(s);
    } else if e.Release? {
      ReleaseKeeps(s, e.i, e.woken);
    } else if OfHandler(e) {
      HandlerStepKeeps(s, e);
      hide HandlersMatchSlots, Apply;
    } else {
      MainStepKeeps(s, e);
    }
  }

  lemma StepKeepsSize(s: State, e: Event)
    requires Enabled(s, e)
    ensures |Apply(s, e).handlers| == |s.handlers|
  {
  }

  lemma InitInv(pool: nat)
    ensures Inv(Init(pool))
  {
    GatherEmpty(Init(pool).sockets, SlotSocket);
    SumNonNegative(Init(pool).sockets, Occupied);
    SumAtMost(Init(pool).sockets, Occupied, 0);
    hide Sum, Gather;
  }

  lemma {:induction false} RunKeeps(pool: nat, events: seq<Event>)
    requires Run(Init(pool), events).Some?
    ensures Inv(Run(Init(pool), events).value) && |Run(Init(pool), events).value.handlers| == pool
  {
    if events == [] {
      InitInv(pool);
    } else {
      var before := events[..|events| - 1];
      hide Inv, Enabled, Apply;
      RunKeeps(pool, before);
      StepKeeps(Run(Init(pool), before).value, events[|events| - 1]);
      StepKeepsSize(Run(Init(pool), before).value, events[|events| - 1]);
    }
  }

  /* ---- What the gate promises ---- */

  ghost predicate Reached(pool: nat, events: seq<Event>, s: State) {
    Run(Init(pool), events) == Some(s)
  }

  /** Main asleep means every slot taken and no handler asleep beside it; so the one signal of a
      release reaches main. */
  lemma ReleaseWakesMain(pool: nat, events: seq<Event>, s: State)
    requires Reached(pool, events, s) && s.main.MainAsleep?
    ensures |s.sockets| == |s.handlers| == pool == s.active
    ensures forall i :: 0 <= i < pool ==> s.sockets[i] != 0 && !s.handlers[i].HandlerAsleep?
    ensures forall i: nat, w :: Enabled(s, Release(i, w)) ==> w == MainThread && Apply(s, Release(i, w)).main.Holding?
  {
    RunKeeps(pool, events);
    FullMeansNoneFree(s.sockets);
  }

  /** A socket in a slot is never slept on: its handler is on the way to it, at work on it, or left
      with it after a failed send. */
  lemma AssignedSocketIsSeen(pool: nat, events: seq<Event>, s: State, i: nat)
    requires Reached(pool, events, s) && s.running && i < |s.sockets| && s.sockets[i] != 0
    ensures |s.handlers| == |s.sockets|
    ensures var h := s.handlers[i]; h.HandlerReady? || (HasSocket(h) && h.socket == s.sockets[i]) || h.HandlerGone?
  {
    RunKeeps(pool, events);
  }

  /** Every accepted socket is in main's hand, in one slot, or was released. */
  lemma EverySocketAccounted(pool: nat, events: seq<Event>, s: State)
    requires Reached(pool, events, s)
    ensures multiset(s.accepted) == MainSocket(s.main) + Gather(s.sockets, SlotSocket) + multiset(s.released)
    ensures s.active == Sum(s.sockets, Occupied) <= pool
  {
    RunKeeps(pool, events);
    FullMeansNoneFree(s.sockets);
  }

  /** A handler that main has filled a slot for finds main's socket there. */
  lemma MainFillsOneSlot(pool: nat, events: seq<Event>, s: State) returns (i: nat)
    requires Reached(pool, events, s) && s.main.Holding? && s.active < pool
    ensures i < |s.sockets| == |s.handlers| && s.sockets[i] == 0
    ensures Apply(s, MainLock).sockets == s.sockets[i := s.main.socket]
    ensures |Apply(s, MainLock).handlers| == |s.handlers| && !Apply(s, MainLock).handlers[i].HandlerAsleep?
  {
    RunKeeps(pool, events);
    i := FillSlot(s.sockets, s.main.socket);
  }

  /* ---- When main waits for ever ---- */

  /** Main needs a slot and all are taken. */
  ghost predicate MainWaits(s: State) {
    s.active == |s.handlers| && (s.main.MainAsleep? || s.main.Holding?)
  }

  /** A handler that can never give its slot back unless a new connection gets its descriptor: it has
      left, or will leave at its next lock, or has yet to use a socket that is closed. */
  ghost predicate Lost(s: State, i: nat)
    requires i < |s.handlers| == |s.sockets|
  {
    match s.handlers[i]
    case HandlerReady => !s.running || s.sockets[i] !in s.open
    case Greeting(socket) => socket !in s.open
    case Reading(socket) => socket !in s.open
    case HandlerGone => true
    case _ => false
  }

  ghost predicate AllLost(s: State) {
    |s.handlers| == |s.sockets| && forall i :: 0 <= i < |s.handlers| ==> Lost(s, i)
  }

  ghost predicate Stuck(s: State) {
    MainWaits(s) && AllLost(s) && HandlersMatchSlots(s) && forall i :: 0 <= i < |s.sockets| ==> s.sockets[i] != 0
  }

  lemma StuckStep(s: State, e: Event)
    requires Stuck(s) && Enabled(s, e)
    ensures Stuck(Apply(s, e)) && Apply(s, e).sockets == s.sockets
  {
    if OfHandler(e) || e.Release? {
      assert Lost(s, e.i);
    }
    forall i | 0 <= i < |s.handlers| ensures |Apply(s, e).handlers| == |s.handlers| && Lost(Apply(s, e), i) {
      assert Lost(s, i);
    }
  }

  lemma {:induction false} StuckForEver(s: State, more: seq<Event>)
    requires Stuck(s) && Run(s, more).Some?
    ensures Stuck(Run(s, more).value) && Run(s, more).value.sockets == s.sockets
  {
    if more != [] {
      var before := more[..|more| - 1];
      StuckForEver(s, before);
      StuckStep(Run(s, before).value, more[|more| - 1]);
      hide Stuck, Enabled, Apply;
    }
  }

  ghost predicate Follows(s: State, more: seq<Event>, t: State) {
    Run(s, more) == Some(t)
  }

  lemma OneMore(s: State, more: seq<Event>, t: State, e: Event)
    requires Follows(s, more, t) && Enabled(t, e)
    ensures Follows(s, more + [e], Apply(t, e))
  {
    assert (more + [e])[..|more|] == more;
  }

  function StepsToRelease(h: Handler): nat {
    match h
    case HandlerReady => 4
    case Greeting(_) => 3
    case Reading(_) => 2
    case Serving(_) => 1
    case _ => 0
  }

  lemma TowardsRelease(s: State, i: nat) returns (e: Event)
    requires Inv(s) && i < |s.handlers| == |s.sockets| && s.sockets[i] != 0
    requires !Lost(s, i) && !s.handlers[i].Releasing?
    ensures Enabled(s, e) && OfHandler(e) && |Apply(s, e).handlers| == |Apply(s, e).sockets| == |s.handlers|
    ensures !Lost(Apply(s, e), i) && StepsToRelease(Apply(s, e).handlers[i]) < StepsToRelease(s.handlers[i])
  {
    match s.handlers[i]
    case HandlerReady => e := HandlerLock(i);
    case Greeting(_) => e := SendOk(i);
    case Reading(_) => e := ReadOk(i);
    case Serving(_) => e := Hangup(i);
  }

  /** The release of a slot lets a waiting main on. */
  lemma ReleaseLetsMainOn(s: State, i: nat) returns (w: Woken)
    requires Inv(s) && MainWaits(s) && At(s, i) && s.handlers[i].Releasing?
    ensures Enabled(s, Release(i, w)) && Enabled(Apply(s, Release(i, w)), MainLock)
    ensures Apply(Apply(s, Release(i, w)), MainLock).main.Accepting?
  {
    FullMeansNoneFree(s.sockets);
    hide Sum, Gather, AssignFree, SocketsAddUp;
    w := if s.main.MainAsleep? then MainThread else Nobody;
  }

  /** A handler that is not lost can get to its release. */
  lemma LetsMainOn(s: State, i: nat) returns (more: seq<Event>, t: State)
    requires Inv(s) && MainWaits(s) && i < |s.handlers| == |s.sockets| && s.sockets[i] != 0 && !Lost(s, i)
    ensures Follows(s, more, t) && t.main.Accepting?
  {
    more, t := [], s;
    hide Inv, Lost, Enabled, Apply;
    while !t.handlers[i].Releasing?
      invariant Follows(s, more, t) && Inv(t) && MainWaits(t)
      invariant i < |t.handlers| == |t.sockets| && t.sockets[i] != 0 && !Lost(t, i)
      decreases StepsToRelease(t.handlers[i])
    {
      var e := TowardsRelease(t, i);
      OneMore(s, more, t, e);
      StepKeeps(t, e);
      InvMatches(t);
      HandlerStepKeeps(t, e);
      more, t := more + [e], Apply(t, e);
    }
    var w := ReleaseLetsMainOn(t, i);
    OneMore(s, more, t, Release(i, w));
    OneMore(s, more + [Release(i, w)], Apply(t, Release(i, w)), MainLock);
    more, t := more + [Release(i, w)] + [MainLock], Apply(Apply(t, Release(i, w)), MainLock);
  }

  lemma InvMatches(s: State)
    requires Inv(s)
    ensures HandlersMatchSlots(s)
  {
  }

  /** When all slots are taken, main gets back to the head of its loop in some continuation unless
      every handler is lost; then it does in none, and none frees a slot. */
  lemma MainWaitsInVain(pool: nat, events: seq<Event>, s: State)
    requires Reached(pool, events, s) && MainWaits(s)
    ensures AllLost(s) <==> forall more, t :: Follows(s, more, t) ==> !t.main.Accepting?
    ensures AllLost(s) ==> forall more, t :: Follows(s, more, t) ==> MainWaits(t) && t.sockets == s.sockets
  {
    RunKeeps(pool, events);
    FullMeansNoneFree(s.sockets);
    if AllLost(s) {
      forall more, t | Follows(s, more, t) ensures MainWaits(t) && t.sockets == s.sockets {
        StuckForEver(s, more);
      }
    } else {
      var i: nat :| i < |s.handlers| && !Lost(s, i);
      var more, t := LetsMainOn(s, i);
    }
  }

  lemma RunOn(pool: nat, events: seq<Event>, s: State, e: Event) returns (more: seq<Event>, t: State)
    requires Reached(pool, events, s) && Enabled(s, e)
    ensures Reached(pool, more, t) && more == events + [e] && t == Apply(s, e)
  {
    more, t := events + [e], Apply(s, e);
    assert more[..|events|] == events;
  }

  /** A pool of one with the client on descriptor 5 in its slot. */
  lemma OnePlaced() returns (events: seq<Event>, s: State)
    ensures Reached(1, events, s) && events == [Accept(5), MainLock]
    ensures s == State(true, [5], 1, Accepting, [HandlerReady], {5}, [5], [])
  {
    events, s := [], Init(1);
    events, s := RunOn(1, events, s, Accept(5));
    events, s := RunOn(1, events, s, MainLock);
  }

  /** And with its handler about to greet it. */
  lemma OneGreeting() returns (events: seq<Event>, s: State)
    ensures Reached(1, events, s) && events == [Accept(5), MainLock, HandlerLock(0)]
    ensures s == State(true, [5], 1, Accepting, [Greeting(5)], {5}, [5], [])
  {
    events, s := OnePlaced();
    hide Run;
    events, s := RunOn(1, events, s, HandlerLock(0));
  }

  /** With a pool of one, a greeting that cannot be sent leaves main waiting in vain. */
  lemma StuckAfterFailedGreeting() returns (events: seq<Event>, s: State)
    ensures Reached(1, events, s) && SendFails(0) in events
    ensures s.running && s.main == MainAsleep(6) && MainWaits(s) && AllLost(s) && s.handlers == [HandlerGone]
  {
    events, s := OneGreeting();
    events, s := RunOn(1, events, s, SendFails(0));
    events, s := RunOn(1, events, s, Accept(6));
    events, s := RunOn(1, events, s, MainLock);
  }

  /** So do numbers that cannot be read, although the handler has not left. */
  lemma StuckAfterFailedRead() returns (events: seq<Event>, s: State)
    ensures Reached(1, events, s) && ReadFails(0) in events
    ensures s.running && s.main == MainAsleep(6) && MainWaits(s) && AllLost(s) && s.handlers == [HandlerReady]
  {
    events, s := OneGreeting();
    events, s := RunOn(1, events, s, SendOk(0));
    events, s := RunOn(1, events, s, ReadFails(0));
    events, s := RunOn(1, events, s, Accept(6));
    events, s := RunOn(1, events, s, MainLock);
  }

  /** Nor does it take a failed call: a courier that closes the connection main accepted last, before
      its handler has greeted it, leaves main waiting in vain as well. */
  lemma StuckAfterCourierCloses() returns (events: seq<Event>, s: State)
    ensures Reached(1, events, s) && events == [Accept(5), MainLock, ClosedElsewhere(5), Accept(6), MainLock]
    ensures s.running && s.main == MainAsleep(6) && MainWaits(s) && AllLost(s) && s.handlers == [HandlerReady]
  {
    events, s := OnePlaced();
    hide Run;
    events, s := RunOn(1, events, s, ClosedElsewhere(5));
    assert s == State(true, [5], 1, Accepting, [HandlerReady], {}, [5], []);
    events, s := RunOn(1, events, s, Accept(6));
    assert s == State(true, [5], 1, Holding(6), [HandlerReady], {6}, [5, 6], []);
    events, s := RunOn(1, events, s, MainLock);
  }

  /** But when the next connection gets the closed descriptor, the handler is not lost: it greets the
      waiting client on the slot of the one before. */
  lemma DescriptorUsedAgain() returns (events: seq<Event>, s: State)
    ensures Reached(1, events, s) && ReadFails(0) in events
    ensures s.main == MainAsleep(5) && s.handlers == [Greeting(5)] && !AllLost(s)
  {
    events, s := OneGreeting();
    events, s := RunOn(1, events, s, SendOk(0));
    events, s := RunOn(1, events, s, ReadFails(0));
    events, s := RunOn(1, events, s, Accept(5));
    events, s := RunOn(1, events, s, MainLock);
    events, s := RunOn(1, events, s, HandlerLock(0));
    assert !Lost(s, 0);
  }

  /* ---- The critical sections on the array ---- */

  /** `client_sockets` and `active_threads`, for a pool that main has checked to fit. */
  class SharedGate {
    const pool: nat
    const sockets: array<int>
    var active: int
    var running: bool

    ghost var state: State

    ghost predicate Valid()
      reads this, sockets
    {
      && sockets.Length == ShopQueues.MAX_CLIENTS && pool <= ShopQueues.MAX_CLIENTS
      && Inv(state) && |state.sockets| == |state.handlers| == pool
      && state.sockets == sockets[..pool] && state.active == active && state.running == running
    }

    constructor (pool: nat)
      requires pool <= ShopQueues.MAX_CLIENTS
      ensures Valid() && fresh(sockets) && this.pool == pool && state == Init(pool)
    {
      this.pool := pool;
      sockets := new int[ShopQueues.MAX_CLIENTS](_ => 0);
      active, running, state := 0, true, Init(pool);
      new;
      InitInv(pool);
      hide Inv;
    }

    /** Main with an accepted socket (lines 564-578). */
    method MainSection(socket: int) returns (placed: bool)
      requires Valid() && state.main == Holding(socket)
      modifies this`state, this`active, sockets
      ensures Valid() && state == Apply(old(state), MainLock)
      ensures placed <==> state.main.Accepting?
    {
      hide Inv;
      StepKeeps(state, MainLock);
      StepKeepsSize(state, MainLock);
      SlotsMatchPool(Apply(state, MainLock));
      placed := active != pool;
      if placed {
        AssignSlot(sockets, pool, socket);
        active := active + 1;
      }
      state := Apply(state, MainLock);
    }

    /** A handler's turn (lines 340-350): Some socket to serve, or None when it sleeps or leaves. */
    method HandlerSection(i: nat) returns (socket: Option<int>)
      requires Valid() && Enabled(state, HandlerLock(i))
      modifies this`state
      ensures Valid() && state == Apply(old(state), HandlerLock(i))
      ensures socket == if running && sockets[i] != 0 then Some(sockets[i]) else None
    {
      hide Inv;
      StepKeeps(state, HandlerLock(i));
      socket := if running && sockets[i] != 0 then Some(sockets[i]) else None;
      state := Apply(state, HandlerLock(i));
    }

    /** A handler gives its slot back (lines 453-457). */
    method ReleaseSlot(i: nat, ghost woken: Woken)
      requires Valid() && Enabled(state, Release(i, woken))
      modifies this`state, this`active, sockets
      ensures Valid() && state == Apply(old(state), Release(i, woken))
      ensures active == old(active) - 1 && sockets[..] == old(sockets[..])[i := 0]
    {
      hide Inv;
      StepKeeps(state, Release(i, woken));
      sockets[i] := 0;
      active := active - 1;
      state := Apply(state, Release(i, woken));
    }

    static lemma SlotsMatchPool(s: State)
      requires Inv(s)
      ensures |s.sockets| == |s.handlers|
    {
    }
  }
}
