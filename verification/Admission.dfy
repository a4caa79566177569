/** Client admission of the file server (Midterm Project/src/server.c, the loop of server_func):
    a bounded array of active clients and an array of waiting ones, both shifted by hand, driven
    by any sequence of messages. */
module Admission {
  import opened Folds

  const BUFF_SIZE := 1024

  datatype Message = Message(pid: int, text: string)

  datatype Desk = Desk(active: seq<int>, waiting: seq<int>)

  /** What the server does with a message. */
  datatype Reply =
    | Connected
    | Queued       // "negative", and remembered
    | Refused      // "negative", and forgotten
    | Executed     // the command runs in a child

  function RemoveFirst(pids: seq<int>, pid: int): seq<int> {
    if pids == [] then []
    else if pids[0] == pid then pids[1..]
    else [pids[0]] + RemoveFirst(pids[1..], pid)
  }

  function ReplyTo(limit: int, d: Desk, m: Message): Reply {
    if m.pid in d.active then Executed
    else if |d.active| < limit then Connected
    else if m.text == "1" then Queued
    else Refused
  }

  function Promote(d: Desk): Desk {
    if d.waiting == [] then d else Desk(d.active + [d.waiting[0]], d.waiting[1..])
  }

  function Next(limit: int, d: Desk, m: Message): Desk {
    match ReplyTo(limit, d, m)
    case Connected => d.(active := d.active + [m.pid])
    case Queued => d.(waiting := d.waiting + [m.pid])
    case Refused => d
    case Executed => if m.text == "quit" then Promote(d.(active := RemoveFirst(d.active, m.pid))) else d
  }

  function After(limit: int, messages: seq<Message>): Desk {
    if messages == [] then Desk([], [])
    else Next(limit, After(limit, messages[..|messages| - 1]), messages[|messages| - 1])
  }

  /* ---- The arrays ---- */

  lemma {:induction false} RemoveFirstAt(pids: seq<int>, i: nat, pid: int)
    requires i < |pids| && pids[i] == pid && pid !in pids[..i]
    ensures RemoveFirst(pids, pid) == pids[..i] + pids[i + 1..]
  {
    if i > 0 {
      assert pids[0] in pids[..i];
      assert pids[1..][..i - 1] == pids[..i][1..];
      RemoveFirstAt(pids[1..], i - 1, pid);
      assert [pids[0]] + (pids[1..][..i - 1] + pids[1..][i..]) == pids[..i] + pids[i + 1..];
    }
  }

  /** `cl_id`, `count_cl`, `w_id`, `count_or` and `num_of_cl`. */
  class Server {
    const limit: int
    const clients: array<int>
    var clientCount: nat
    const waiters: array<int>
    var waiterCount: nat

    ghost predicate Valid()
      reads this
    {
      && clients.Length == waiters.Length == BUFF_SIZE && clients != waiters
      && clientCount <= BUFF_SIZE && waiterCount <= BUFF_SIZE
    }

    ghost function View(): Desk
      requires Valid()
      reads this, clients, waiters
    {
      Desk(clients[..clientCount], waiters[..waiterCount])
    }

    constructor (limit: int)
      ensures Valid() && fresh(clients) && fresh(waiters) && this.limit == limit && View() == Desk([], [])
    {
      this.limit := limit;
      clients := new int[BUFF_SIZE](_ => 0);
      waiters := new int[BUFF_SIZE](_ => 0);
      clientCount, waiterCount := 0, 0;
    }

    method CheckPlace(pid: int) returns (found: bool)
      requires Valid()
      ensures found <==> pid in View().active
    {
      var i := 0;
      while i < clientCount
        invariant 0 <= i <= clientCount
        invariant pid !in clients[..i]
      {
        if clients[i] == pid {
          return true;
        }
        i := i + 1;
      }
      found := false;
    }

    /** The flag-driven removal loop. */
    method RemoveClient(pid: int)
      requires Valid() && pid in View().active
      modifies this`clientCount, clients
      ensures Valid() && View() == old(View()).(active := RemoveFirst(old(View()).active, pid))
      ensures clientCount == old(clientCount) - 1
    {
      ghost var before := clients[..clientCount];
      ghost var first := 0;
      var flag := false;
      var i := 0;
      while i < clientCount
        invariant 0 <= i <= clientCount && clientCount == old(clientCount)
        invariant !flag ==> pid !in before[..i] && clients[..clientCount] == before
        invariant flag ==> first < i && before[first] == pid && pid !in before[..first]
        invariant flag ==> forall k :: 0 <= k < first ==> clients[k] == before[k]
        invariant flag ==> forall k :: first <= k < i && k < clientCount - 1 ==> clients[k] == before[k + 1]
        invariant flag ==> forall k :: i <= k < clientCount ==> clients[k] == before[k]
      {
        if clients[i] == pid {
          if !flag {
            first := i;
          }
          flag := true;
          if i != clientCount - 1 {
            clients[i] := clients[i + 1];
          }
        } else if flag && i != clientCount - 1 {
          clients[i] := clients[i + 1];
        }
        i := i + 1;
      }
      assert flag by {
        assert before[..clientCount] == before;
      }
      RemoveFirstAt(before, first, pid);
      clientCount := clientCount - 1;
      assert clients[..clientCount] == before[..first] + before[first + 1..];
    }

    /** The first waiter becomes a client and the others move up. */
    method PromoteWaiter()
      requires Valid() && waiterCount > 0 && clientCount < BUFF_SIZE
      modifies this, clients, waiters
      ensures Valid() && View() == Promote(old(View()))
    {
      clients[clientCount] := waiters[0];
      clientCount := clientCount + 1;
      ghost var before := waiters[..waiterCount];
      var i := 0;
      while i < waiterCount
        invariant 0 <= i <= waiterCount && waiterCount == |before| && clientCount == old(clientCount) + 1
        invariant forall k :: 0 <= k < i && k < waiterCount - 1 ==> waiters[k] == before[k + 1]
        invariant forall k :: i <= k < waiterCount ==> waiters[k] == before[k]
        invariant clients[..] == old(clients[..])[old(clientCount) := before[0]]
      {
        if i != waiterCount - 1 {
          waiters[i] := waiters[i + 1];
        }
        i := i + 1;
      }
      waiterCount := waiterCount - 1;
      assert waiters[..waiterCount] == before[1..];
    }

    /** One message; the array of waiters has room for one more. */
    method Handle(m: Message) returns (reply: Reply)
      requires Valid() && limit <= BUFF_SIZE && waiterCount < BUFF_SIZE
      modifies this, clients, waiters
      ensures Valid()
      ensures reply == ReplyTo(limit, old(View()), m)
      ensures View() == Next(limit, old(View()), m)
    {
      hide RemoveFirst;
      var known := CheckPlace(m.pid);
      if !known {
        if clientCount < limit {
          clients[clientCount] := m.pid;
          clientCount := clientCount + 1;
          reply := Connected;
        } else if m.text == "1" {
          waiters[waiterCount] := m.pid;
          waiterCount := waiterCount + 1;
          reply := Queued;
        } else {
          reply := Refused;
        }
      } else {
        reply := Executed;
        if m.text == "quit" {
          RemoveClient(m.pid);
          if waiterCount != 0 {
            PromoteWaiter();
          }
        }
      }
    }
  }

  /* ---- Any sequence of messages ---- */

  /** The pids that were queued, that left the queue, that became active, that quit, in order. */
  datatype Flow = Flow(enqueued: seq<int>, promoted: seq<int>, entered: seq<int>, quit: seq<int>)

  function FlowOf(limit: int, messages: seq<Message>): Flow {
    if messages == [] then Flow([], [], [], []) else
      var before := messages[..|messages| - 1];
      var m := messages[|messages| - 1];
      var d, f := After(limit, before), FlowOf(limit, before);
      match ReplyTo(limit, d, m)
      case Connected => f.(entered := f.entered + [m.pid])
      case Queued => f.(enqueued := f.enqueued + [m.pid])
      case Refused => f
      case Executed =>
        if m.text != "quit" then f
        else if d.waiting == [] then f.(quit := f.quit + [m.pid])
        else f.(quit := f.quit + [m.pid], promoted := f.promoted + [d.waiting[0]],
                entered := f.entered + [d.waiting[0]])
  }

  /** The limit as a number of places; a negative one leaves none. */
  function Places(limit: int): nat {
    if limit < 0 then 0 else limit
  }

  ghost predicate Sound(limit: int, d: Desk) {
    && |d.active| <= Places(limit)
    && (d.waiting != [] ==> |d.active| == Places(limit))
  }

  lemma {:induction false} RemoveFirstMultiset(pids: seq<int>, pid: int)
    requires pid in pids
    ensures multiset(RemoveFirst(pids, pid)) == multiset(pids) - multiset{pid}
    ensures |RemoveFirst(pids, pid)| == |pids| - 1
  {
    assert pids == [pids[0]] + pids[1..];
    if pids[0] != pid {
      RemoveFirstMultiset(pids[1..], pid);
    }
  }

  /** Never more active clients than the limit allows, and nobody waits while there is a place. */
  lemma {:induction false} NeverOverLimit(limit: int, messages: seq<Message>)
    ensures Sound(limit, After(limit, messages))
  {
    if messages != [] {
      var before, m := messages[..|messages| - 1], messages[|messages| - 1];
      NeverOverLimit(limit, before);
      var d := After(limit, before);
      if m.pid in d.active {
        RemoveFirstMultiset(d.active, m.pid);
      }
      hide RemoveFirst;
    }
  }

  /** Waiters are served in the order they queued up. */
  lemma {:induction false} ServedInOrder(limit: int, messages: seq<Message>)
    ensures FlowOf(limit, messages).enqueued == FlowOf(limit, messages).promoted + After(limit, messages).waiting
  {
    if messages != [] {
      hide RemoveFirst;
      ServedInOrder(limit, messages[..|messages| - 1]);
    }
  }

  lemma QuitMultiset(limit: int, d: Desk, m: Message)
    requires m.pid in d.active && m.text == "quit"
    ensures multiset(Next(limit, d, m).active)
         == multiset(d.active) - multiset{m.pid} + multiset(if d.waiting == [] then [] else [d.waiting[0]])
  {
    RemoveFirstMultiset(d.active, m.pid);
    hide RemoveFirst;
  }

  /** Everyone who became active is active or has quit, as often as it became active. */
  lemma {:induction false} EnteredStayOrQuit(limit: int, messages: seq<Message>)
    ensures multiset(FlowOf(limit, messages).entered)
         == multiset(After(limit, messages).active) + multiset(FlowOf(limit, messages).quit)
  {
    if messages != [] {
      var before, m := messages[..|messages| - 1], messages[|messages| - 1];
      EnteredStayOrQuit(limit, before);
      var d, f := After(limit, before), FlowOf(limit, before);
      if ReplyTo(limit, d, m) == Executed && m.text == "quit" {
        QuitMultiset(limit, d, m);
        hide Next, RemoveFirst;
        Balance(multiset(f.entered), multiset(d.active), multiset(f.quit), m.pid,
                multiset(if d.waiting == [] then [] else [d.waiting[0]]));
      } else {
        EnteredStep(limit, d, m);
        hide Next, ReplyTo;
      }
    }
  }

  lemma EnteredStep(limit: int, d: Desk, m: Message)
    requires ReplyTo(limit, d, m) != Executed || m.text != "quit"
    ensures multiset(Next(limit, d, m).active)
         == multiset(d.active) + if ReplyTo(limit, d, m) == Connected then multiset{m.pid} else multiset{}
  {
  }

  lemma Balance(entered: multiset<int>, active: multiset<int>, quit: multiset<int>, pid: int, promoted: multiset<int>)
    requires entered == active + quit && pid in active
    ensures entered + promoted == active - multiset{pid} + promoted + (quit + multiset{pid})
  {
  }

  /** A command runs exactly for a pid that became active more often than it has quit. */
  lemma CommandsRunForActive(limit: int, messages: seq<Message>, m: Message)
    ensures ReplyTo(limit, After(limit, messages), m) == Executed
       <==> multiset(FlowOf(limit, messages).entered)[m.pid] > multiset(FlowOf(limit, messages).quit)[m.pid]
  {
    EnteredStayOrQuit(limit, messages);
    var d := After(limit, messages);
    assert m.pid in d.active <==> multiset(d.active)[m.pid] > 0;
  }

  /** A newcomer is connected at once only when nobody waits. */
  lemma NoOvertaking(limit: int, messages: seq<Message>, m: Message)
    requires ReplyTo(limit, After(limit, messages), m) == Connected
    ensures After(limit, messages).waiting == []
  {
    NeverOverLimit(limit, messages);
  }

  /** The pid has become active more often than it has quit. */
  predicate Inside(limit: int, messages: seq<Message>, pid: int) {
    multiset(FlowOf(limit, messages).entered)[pid] > multiset(FlowOf(limit, messages).quit)[pid]
  }

  /** Who is not inside is turned away if and only if as many are inside as the limit allows, whatever
      it sends; it is queued if and only if moreover it sends "1". */
  lemma TurnedAwayWhenFull(limit: int, messages: seq<Message>, m: Message)
    requires !Inside(limit, messages, m.pid)
    ensures var f, reply := FlowOf(limit, messages), ReplyTo(limit, After(limit, messages), m);
            && (reply == Connected || reply == Queued || reply == Refused)
            && (reply == Connected <==> |f.entered| - |f.quit| < limit)
            && (reply == Queued <==> |f.entered| - |f.quit| >= limit && m.text == "1")
  {
    CommandsRunForActive(limit, messages, m);
    HowManyInside(limit, messages);
    NeverOverLimit(limit, messages);
    hide After, FlowOf;
  }

  lemma HowManyInside(limit: int, messages: seq<Message>)
    ensures |After(limit, messages).active| == |FlowOf(limit, messages).entered| - |FlowOf(limit, messages).quit|
  {
    hide After, FlowOf;
    EnteredStayOrQuit(limit, messages);
    var d, f := After(limit, messages), FlowOf(limit, messages);
    assert |multiset(f.entered)| == |multiset(d.active)| + |multiset(f.quit)|;
  }

  /** What one more message adds to the histories, by what was there before: a newcomer enters while
      there is a place, whatever it sends, and is queued behind the others when it sends "1"; one that
      is inside leaves with "quit", and only then the first of the queue enters. */
  lemma HistoryGrows(limit: int, messages: seq<Message>, m: Message)
    ensures var f, g := FlowOf(limit, messages), FlowOf(limit, messages + [m]);
            if !Inside(limit, messages, m.pid) then
              && g.quit == f.quit && g.promoted == f.promoted
              && g.entered == f.entered + (if |f.entered| - |f.quit| < limit then [m.pid] else [])
              && g.enqueued == f.enqueued + (if |f.entered| - |f.quit| >= limit && m.text == "1" then [m.pid] else [])
            else if m.text != "quit" then g == f
            else
              && g.quit == f.quit + [m.pid] && g.enqueued == f.enqueued && |f.promoted| <= |f.enqueued|
              && var next := if |f.promoted| < |f.enqueued| then [f.enqueued[|f.promoted|]] else [];
              g.promoted == f.promoted + next && g.entered == f.entered + next
  {
    assert (messages + [m])[..|messages|] == messages;
    CommandsRunForActive(limit, messages, m);
    ServedInOrder(limit, messages);
    if !Inside(limit, messages, m.pid) {
      TurnedAwayWhenFull(limit, messages, m);
    }
    hide After;
  }

  /* ---- Duplicates ---- */

  /** Every pid is active once, or waiting once, not both. */
  ghost predicate Apart(d: Desk) {
    Distinct(d.active + d.waiting)
  }

  ghost predicate ResendsWhileWaiting(d: Desk, m: Message) {
    m.pid in d.waiting && m.text == "1"
  }

  lemma DistinctCounts(pids: seq<int>)
    ensures Distinct(pids) <==> forall p :: multiset(pids)[p] <= 1
  {
    if Distinct(pids) {
      forall p
        ensures multiset(pids)[p] <= 1
      {
        CountOnce(pids, p);
      }
    } else {
      var i, j :| 0 <= i < j < |pids| && pids[i] == pids[j];
      assert pids == pids[..i] + [pids[i]] + pids[i + 1..j] + [pids[j]] + pids[j + 1..];
      assert multiset(pids)[pids[i]] >= 2;
    }
  }

  lemma {:induction false} CountOnce(pids: seq<int>, p: int)
    requires Distinct(pids)
    ensures multiset(pids)[p] <= 1
  {
    if pids != [] {
      assert pids == [pids[0]] + pids[1..];
      assert forall i :: 0 <= i < |pids[1..]| ==> pids[1..][i] == pids[i + 1];
      CountOnce(pids[1..], p);
      if pids[0] == p {
        assert p !in pids[1..];
      }
    }
  }

  function Everyone(d: Desk): multiset<int> {
    multiset(d.active) + multiset(d.waiting)
  }

  lemma ApartCounts(d: Desk)
    ensures Apart(d) <==> forall p :: Everyone(d)[p] <= 1
  {
    DistinctCounts(d.active + d.waiting);
    assert multiset(d.active + d.waiting) == Everyone(d);
  }

  lemma EveryoneAfter(limit: int, d: Desk, m: Message)
    ensures Everyone(Next(limit, d, m)) ==
      match ReplyTo(limit, d, m)
      case Connected => Everyone(d) + multiset{m.pid}
      case Queued => Everyone(d) + multiset{m.pid}
      case Refused => Everyone(d)
      case Executed => if m.text == "quit" then Everyone(d) - multiset{m.pid} else Everyone(d)
  {
    hide RemoveFirst;
    if ReplyTo(limit, d, m) == Executed && m.text == "quit" {
      EveryoneAfterQuit(limit, d, m);
      hide Everyone, Next, ReplyTo;
    }
  }

  lemma EveryoneAfterQuit(limit: int, d: Desk, m: Message)
    requires m.pid in d.active && m.text == "quit"
    ensures Everyone(Next(limit, d, m)) == Everyone(d) - multiset{m.pid}
  {
    hide RemoveFirst;
    QuitMultiset(limit, d, m);
    var head := if d.waiting == [] then [] else [d.waiting[0]];
    assert d.waiting == head + Next(limit, d, m).waiting;
    hide Next;
  }

  lemma StepKeepsApart(limit: int, d: Desk, m: Message)
    requires Sound(limit, d) && Apart(d)
    ensures Apart(Next(limit, d, m)) <==> !ResendsWhileWaiting(d, m)
  {
    ApartCounts(d);
    ApartCounts(Next(limit, d, m));
    EveryoneAfter(limit, d, m);
    hide Next, Apart;
    assert Everyone(d)[m.pid] == multiset(d.active)[m.pid] + multiset(d.waiting)[m.pid];
    assert multiset(d.active)[m.pid] > 0 <==> m.pid in d.active;
    assert multiset(d.waiting)[m.pid] > 0 <==> m.pid in d.waiting;
    hide Everyone;
  }

  lemma OneMore(limit: int, messages: seq<Message>, n: nat)
    requires n < |messages|
    ensures After(limit, messages[..n + 1]) == Next(limit, After(limit, messages[..n]), messages[n])
  {
    assert messages[..n + 1][..n] == messages[..n];
  }

  lemma {:induction false} ApartUpTo(limit: int, messages: seq<Message>, n: nat)
    requires n <= |messages|
    requires forall k :: 0 <= k < n ==> !ResendsWhileWaiting(After(limit, messages[..k]), messages[k])
    ensures Apart(After(limit, messages[..n]))
  {
    if n > 0 {
      ApartUpTo(limit, messages, n - 1);
      NeverOverLimit(limit, messages[..n - 1]);
      StepKeepsApart(limit, After(limit, messages[..n - 1]), messages[n - 1]);
      OneMore(limit, messages, n - 1);
    }
  }

  /** Active and waiting clients stay distinct over a whole run exactly when nobody asks to be
      queued again while waiting. */
  lemma DistinctUnlessResent(limit: int, messages: seq<Message>)
    ensures (forall n :: 0 <= n <= |messages| ==> Apart(After(limit, messages[..n])))
       <==> (forall n :: 0 <= n < |messages| ==> !ResendsWhileWaiting(After(limit, messages[..n]), messages[n]))
  {
    hide After, Apart, ResendsWhileWaiting;
    if forall n :: 0 <= n < |messages| ==> !ResendsWhileWaiting(After(limit, messages[..n]), messages[n]) {
      forall n | 0 <= n <= |messages|
        ensures Apart(After(limit, messages[..n]))
      {
        ApartUpTo(limit, messages, n);
      }
    } else {
      var n :| 0 <= n < |messages| && ResendsWhileWaiting(After(limit, messages[..n]), messages[n]);
      NeverOverLimit(limit, messages[..n]);
      OneMore(limit, messages, n);
      if Apart(After(limit, messages[..n])) {
        StepKeepsApart(limit, After(limit, messages[..n]), messages[n]);
      }
    }
  }

  lemma OnTop(limit: int, messages: seq<Message>, d: Desk, m: Message)
    requires After(limit, messages) == d
    ensures After(limit, messages + [m]) == Next(limit, d, m)
  {
    assert (messages + [m])[..|messages|] == messages;
  }

  /** Two clients fill both places and pid 1 asks to be queued. */
  lemma OneWaits() returns (messages: seq<Message>)
    ensures After(2, messages) == Desk([10, 11], [1])
  {
    hide After;
    Nobody(2);
    OnTop(2, [], Desk([], []), Message(10, "1"));
    OnTop(2, [] + [Message(10, "1")], Desk([10], []), Message(11, "1"));
    OnTop(2, [] + [Message(10, "1")] + [Message(11, "1")], Desk([10, 11], []), Message(1, "1"));
    messages := [] + [Message(10, "1")] + [Message(11, "1")] + [Message(1, "1")];
  }

  lemma Nobody(limit: int)
    ensures After(limit, []) == Desk([], [])
  {
  }

  /** When it asks again it is queued twice, and becomes active twice when the two clients quit. */
  lemma ActiveTwice() returns (messages: seq<Message>, again: Message, later: seq<Message>)
    ensures ResendsWhileWaiting(After(2, messages), again) && After(2, messages + [again]).waiting == [1, 1]
    ensures After(2, messages + [again] + later) == Desk([1, 1], [])
    ensures !Apart(After(2, messages + [again] + later))
  {
    hide After;
    messages := OneWaits();
    again := Message(1, "1");
    OnTop(2, messages, Desk([10, 11], [1]), again);
    OnTop(2, messages + [again], Desk([10, 11], [1, 1]), Message(10, "quit"));
    OnTop(2, messages + [again] + [Message(10, "quit")], Desk([11, 1], [1]), Message(11, "quit"));
    later := [Message(10, "quit")] + [Message(11, "quit")];
    assert messages + [again] + later == messages + [again] + [Message(10, "quit")] + [Message(11, "quit")];
    var all := After(2, messages + [again] + later);
    assert (all.active + all.waiting)[0] == (all.active + all.waiting)[1];
  }
}
