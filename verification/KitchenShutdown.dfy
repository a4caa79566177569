/** What a shutdown of the shop does: nothing new is begun, and everyone can leave. */
module KitchenShutdown {
  import opened Folds
  import opened ShopQueues
  import opened Kitchen
  import opened KitchenSafety
  import opened KitchenTheorems
  import opened KitchenProgress
  import opened KitchenEnd

  /** Nothing new is begun: no thread takes an order from a queue or falls asleep on one. */
  ghost predicate OnlyWindsDown(u: State, t: State) {
    && !t.running && u.orderQueue <= t.orderQueue
    && t.picked == u.picked && t.collected == u.collected
    && |t.cooks| == |u.cooks| && |t.couriers| == |u.couriers|
    && (t.manager.ManagerAsleep? ==> u.manager.ManagerAsleep?)
    && (forall i :: 0 <= i < |u.cooks| && t.cooks[i].CookAsleep? ==> u.cooks[i].CookAsleep?)
    && (forall i :: 0 <= i < |u.couriers| && t.couriers[i].CourierAsleep? ==> u.couriers[i].CourierAsleep?)
  }

  lemma WindsDown(u: State, s: State, e: Event)
    requires OnlyWindsDown(u, s) && Enabled(s, e)
    ensures OnlyWindsDown(u, Apply(s, e))
  {
    hide RemoveFirstById, AsReceived;
  }

  lemma {:induction false} WindsDownOverRuns(u: State, more: seq<Event>, t: State)
    requires !u.running && Run(u, more) == Some(t)
    ensures OnlyWindsDown(u, t)
  {
    if more != [] {
      var before := more[..|more| - 1];
      WindsDownOverRuns(u, before, Run(u, before).value);
      WindsDown(u, Run(u, before).value, more[|more| - 1]);
      hide Enabled, Apply, OnlyWindsDown;
    }
  }

  /** After a shutdown, whatever happens, no thread takes an order from a queue or falls asleep on one. */
  lemma AfterShutdown(cooks: nat, couriers: nat, events: seq<Event>, s: State, more: seq<Event>, t: State)
    requires Reached(cooks, couriers, events, s) && Run(Apply(s, Shutdown), more) == Some(t)
    ensures OnlyWindsDown(Apply(s, Shutdown), t)
  {
    WindsDownOverRuns(Apply(s, Shutdown), more, t);
  }

  /** A session can still hand in an order then; it stays in the queue for ever. */
  lemma LateOrderStays(cooks: nat, couriers: nat, events: seq<Event>, s: State, order: Order)
      returns (u: State)
    requires Reached(cooks, couriers, events, s) && !s.running && order.state == Received
    ensures Reached(cooks, couriers, events + [Admit(order)], u) && u.admitted == s.admitted + [order]
    ensures forall more, t :: Run(u, more) == Some(t) ==> u.orderQueue <= t.orderQueue && order in t.orderQueue
  {
    u := Apply(s, Admit(order));
    ReachedMore(cooks, couriers, events, s, Admit(order));
    assert u.orderQueue == s.orderQueue + [order];
    assert u.orderQueue[|s.orderQueue|] == order;
    forall more, t | Run(u, more) == Some(t)
      ensures u.orderQueue <= t.orderQueue && order in t.orderQueue
    {
      WindsDownOverRuns(u, more, t);
      assert t.orderQueue[|s.orderQueue|] == order;
    }
  }

  function ManagerToGo(m: Manager): int { if m.ManagerGone? then 0 else if m.ManagerReady? then 1 else 2 }

  function CookToGo(c: Cook): int {
    match c
    case CookGone => 0
    case CookReady => 1
    case CookAsleep => 2
    case TakenOut(_) => 3
    case InOven(_) => 4
    case Prepared(_) => 5
    case OvenAsleep(_) => 6
  }

  function CourierToGo(c: Courier): int { if c.CourierGone? then 0 else if c.CourierReady? then 1 else 2 }

  ghost predicate AllGone(s: State) {
    && s.manager.ManagerGone?
    && (forall i :: 0 <= i < |s.cooks| ==> s.cooks[i].CookGone?)
    && (forall i :: 0 <= i < |s.couriers| ==> s.couriers[i].CourierGone?)
  }

  function ToGo(s: State): int {
    ManagerToGo(s.manager) + Sum(s.cooks, CookToGo) + Sum(s.couriers, CourierToGo)
  }

  lemma ToGoNonNegative(s: State)
    ensures ToGo(s) >= 0
  {
    SumNonNegative(s.cooks, CookToGo);
    SumNonNegative(s.couriers, CourierToGo);
  }

  lemma CookNearer(before: seq<Cook>, after: seq<Cook>, i: nat)
    requires i < |before| == |after|
    requires forall j :: 0 <= j < |before| && j != i ==> CookToGo(after[j]) <= CookToGo(before[j])
    requires CookToGo(after[i]) < CookToGo(before[i])
    ensures Sum(after, CookToGo) < Sum(before, CookToGo)
  {
    hide CookToGo;
    if i == 0 {
      NoFurther(before[1..], after[1..]);
    } else {
      CookNearer(before[1..], after[1..], i - 1);
    }
  }

  lemma {:induction false} NoFurther(before: seq<Cook>, after: seq<Cook>)
    requires |before| == |after|
    requires forall j :: 0 <= j < |before| ==> CookToGo(after[j]) <= CookToGo(before[j])
    ensures Sum(after, CookToGo) <= Sum(before, CookToGo)
  {
    hide CookToGo;
    if before != [] {
      assert forall j :: 0 <= j < |before[1..]| ==> before[1..][j] == before[j + 1] && after[1..][j] == after[j + 1];
      NoFurther(before[1..], after[1..]);
    }
  }

  lemma CourierNearer(couriers: seq<Courier>, i: nat, c: Courier)
    requires i < |couriers| && CourierToGo(c) < CourierToGo(couriers[i])
    ensures Sum(couriers[i := c], CourierToGo) < Sum(couriers, CourierToGo)
  {
    SumUpdate(couriers, i, c, CourierToGo);
  }

  /** The next step of a cook after a shutdown: those in the oven first. */
  lemma CookOnItsWay(s: State, i: nat) returns (e: Event)
    requires OvenAgrees(s) && !s.running && i < |s.cooks| && !s.cooks[i].CookGone?
    requires s.cooks[i].Prepared? ==> |s.oven| < OVEN_PLACES
    requires forall j :: 0 <= j < |s.couriers| ==> !s.couriers[j].CourierAsleep?
    ensures Enabled(s, e) && Apply(s, e).manager == s.manager && Apply(s, e).couriers == s.couriers
    ensures |Apply(s, e).cooks| == |s.cooks| && CookToGo(Apply(s, e).cooks[i]) < CookToGo(s.cooks[i])
    ensures forall j :: 0 <= j < |s.cooks| && j != i ==> CookToGo(Apply(s, e).cooks[j]) <= CookToGo(s.cooks[j])
  {
    hide RemoveFirstById, Gather;
    match s.cooks[i]
    case CookReady => e := CookLock(i);
    case CookAsleep => e := CookWake(i);
    case TakenOut(_) => e := Forward(i, None);
    case InOven(_) => e := OvenRemove(i);
    case Prepared(_) => e := OvenLock(i);
    case OvenAsleep(_) => e := OvenWake(i);
  }

  lemma ManagerGoes(s: State) returns (e: Event)
    requires !s.running && !s.manager.ManagerGone?
    ensures Enabled(s, e) && ToGo(Apply(s, e)) < ToGo(s)
  {
    hide Sum;
    match s.manager
    case ManagerReady => e := ManagerLock;
    case ManagerAsleep => e := ManagerWake;
    case Assigning(_) =>
      var w := SomeCookSignal(s.cooks);
      e := ManagerAssign(w);
      if w.Some? {
        SumUpdate(s.cooks, w.value, CookReady, CookToGo);
      }
  }

  lemma CourierGoes(s: State, i: nat) returns (e: Event)
    requires !s.running && i < |s.couriers| && !s.couriers[i].CourierGone?
    ensures Enabled(s, e) && ToGo(Apply(s, e)) < ToGo(s)
  {
    hide Sum;
    match s.couriers[i]
    case CourierReady =>
      e := CourierLock(i);
      CourierNearer(s.couriers, i, CourierGone);
    case CourierAsleep =>
      e := CourierWake(i);
      CourierNearer(s.couriers, i, CourierReady);
    case Carrying(_) =>
      e := Deliver(i, false);
      CourierNearer(s.couriers, i, CourierReady);
  }

  lemma CookGoes(s: State, i: nat) returns (e: Event)
    requires OvenAgrees(s) && !s.running && i < |s.cooks| && !s.cooks[i].CookGone?
    requires forall j :: 0 <= j < |s.couriers| ==> !s.couriers[j].CourierAsleep?
    ensures Enabled(s, e) && ToGo(Apply(s, e)) < ToGo(s)
  {
    hide Sum, Gather;
    var k := i;
    if j: nat :| j < |s.cooks| && s.cooks[j].InOven? {
      k := j;
    } else {
      EmptyOven(s);
    }
    e := CookOnItsWay(s, k);
    CookNearer(s.cooks, Apply(s, e).cooks, k);
    hide Apply;
  }

  lemma SomeoneGoes(s: State) returns (e: Event)
    requires Inv(s) && !s.running && !AllGone(s)
    ensures Enabled(s, e) && ToGo(Apply(s, e)) < ToGo(s)
  {
    hide ToGo, Sum, Gather;
    if !s.manager.ManagerGone? {
      e := ManagerGoes(s);
    } else if i: nat :| i < |s.couriers| && !s.couriers[i].CourierGone? {
      e := CourierGoes(s, i);
    } else {
      var i: nat :| i < |s.cooks| && !s.cooks[i].CookGone?;
      e := CookGoes(s, i);
    }
  }

  lemma RunMore(s: State, more: seq<Event>, t: State, e: Event)
    requires Run(s, more) == Some(t) && Enabled(t, e)
    ensures Run(s, more + [e]) == Some(Apply(t, e))
  {
    hide Enabled, Apply;
    assert (more + [e])[..|more|] == more;
  }

  /** From every state reached after a shutdown all threads can leave, without one of them taking
      another order. */
  lemma EveryoneCanLeave(cooks: nat, couriers: nat, events: seq<Event>, s: State)
      returns (more: seq<Event>, t: State)
    requires Reached(cooks, couriers, events, s) && !s.running
    ensures Run(s, more) == Some(t) && AllGone(t) && OnlyWindsDown(s, t)
  {
    RunKeeps(cooks, couriers, events);
    more, t := [], s;
    hide Inv, Enabled, Apply, ToGo, AllGone, OnlyWindsDown;
    while !AllGone(t)
      invariant Run(s, more) == Some(t) && Inv(t) && !t.running
      decreases ToGo(t)
    {
      var e := SomeoneGoes(t);
      ToGoNonNegative(t);
      RunMore(s, more, t, e);
      StepKeeps(t, e);
      RunningBefore(t, e);
      more, t := more + [e], Apply(t, e);
    }
    WindsDownOverRuns(s, more, t);
  }
}
