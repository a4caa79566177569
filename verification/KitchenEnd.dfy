/** How runs of the shop end without a shutdown: couriers leave by closing a connection and in no other
    way, and every order can be delivered while one is left. */
module KitchenEnd {
  import opened Folds
  import opened ShopQueues
  import opened Kitchen
  import opened KitchenSafety
  import opened KitchenTheorems
  import opened KitchenProgress

  /* ---- Couriers that leave ---- */

  /** Deliveries after which the courier closed the connection. */
  function Closings(events: seq<Event>): nat {
    if events == [] then 0
    else
      var last := events[|events| - 1];
      Closings(events[..|events| - 1]) + if last.Deliver? && last.closing then 1 else 0
  }

  function CourierIsGone(c: Courier): int { if c.CourierGone? then 1 else 0 }

  lemma GoneByClosing(s: State, e: Event)
    requires Enabled(s, e) && s.running
    ensures Sum(Apply(s, e).couriers, CourierIsGone)
         == Sum(s.couriers, CourierIsGone) + if e.Deliver? && e.closing then 1 else 0
  {
    hide Sum, WakeOven, RemoveFirstById;
    match e
    case Forward(_, w) =>
      if w.Some? {
        SumUpdate(s.couriers, w.value, CourierReady, CourierIsGone);
      }
    case CourierLock(i) => SumUpdate(s.couriers, i, Apply(s, e).couriers[i], CourierIsGone);
    case CourierWake(i) => SumUpdate(s.couriers, i, CourierReady, CourierIsGone);
    case Deliver(i, _) => SumUpdate(s.couriers, i, Apply(s, e).couriers[i], CourierIsGone);
    case _ =>
  }

  lemma RunningBefore(s: State, e: Event)
    requires Enabled(s, e)
    ensures Apply(s, e).running <==> s.running && e != Shutdown
  {
    hide WakeOven, RemoveFirstById;
  }

  /** While the shop runs, as many couriers have left as deliveries closed a connection. */
  lemma {:induction false} CouriersGone(cooks: nat, couriers: nat, events: seq<Event>, s: State)
    requires Reached(cooks, couriers, events, s) && s.running
    ensures Sum(s.couriers, CourierIsGone) == Closings(events)
  {
    if events == [] {
      SumNonNegative(s.couriers, CourierIsGone);
      SumAtMost(s.couriers, CourierIsGone, 0);
    } else {
      var before := events[..|events| - 1];
      var u := Run(Init(cooks, couriers), before).value;
      RunningBefore(u, events[|events| - 1]);
      CouriersGone(cooks, couriers, before, u);
      GoneByClosing(u, events[|events| - 1]);
      hide Enabled, Apply, Sum, Init;
    }
  }

  lemma {:induction false} SomeoneLeft(couriers: seq<Courier>) returns (i: nat)
    requires Sum(couriers, CourierIsGone) < |couriers|
    ensures i < |couriers| && !couriers[i].CourierGone?
  {
    if couriers[0].CourierGone? {
      var k := SomeoneLeft(couriers[1..]);
      i := k + 1;
    } else {
      i := 0;
    }
  }

  /** With more couriers than closing deliveries, nothing more to hand on means that every order was
      delivered. */
  lemma QuiescentDelivered(cooks: nat, couriers: nat, events: seq<Event>, s: State)
    requires Reached(cooks, couriers, events, s) && s.running && cooks > 0 && Closings(events) < couriers
    requires forall e :: !Productive(s, e)
    ensures s.deliveryQueue == [] && multiset(s.admitted) == multiset(AllAsReceived(s.delivered))
  {
    hide Run, Sum, Gather, AllAsReceived, Productive;
    QuiescentMeansDone(cooks, couriers, events, s);
    CouriersGone(cooks, couriers, events, s);
    PoolsKeepTheirSize(cooks, couriers, events);
    var i := SomeoneLeft(s.couriers);
    NothingQueued();
  }

  lemma NothingQueued()
    ensures multiset(AllAsReceived([])) == multiset{}
  {
    assert AllAsReceived([]) == [];
  }

  /* ---- Every order can be delivered ---- */

  /** What a running shop with a cook and a courier left can do next. */
  lemma SomethingToDo(cooks: nat, couriers: nat, events: seq<Event>, s: State, close: bool) returns (e: Event)
    requires Reached(cooks, couriers, events, s) && s.running && cooks > 0 && Closings(events) < couriers
    requires |s.delivered| < |s.admitted|
    ensures Productive(s, e) && e != Shutdown && !e.Admit?
    ensures e.Deliver? ==> e.closing == (close && |s.delivered| + 1 == |s.admitted|)
  {
    RunKeeps(cooks, couriers, events);
    PlacesCounted(s);
    CouriersGone(cooks, couriers, events, s);
    PoolsKeepTheirSize(cooks, couriers, events);
    if |s.forwarded| < |s.admitted| {
      e := KitchenNeverStuck(cooks, couriers, events, s);
    } else {
      hide Run, Sum, Gather;
      if |s.deliveryQueue| > 0 {
        var i := SomeoneLeft(s.couriers);
        e := CourierTakesOne(s, i, close && |s.delivered| + 1 == |s.admitted|);
      } else {
        var i := SumWitness(s.couriers, CourierBusy);
        e := Deliver(i, close && |s.delivered| + 1 == |s.admitted|);
      }
    }
  }

  lemma CourierTakesOne(s: State, i: nat, closing: bool) returns (e: Event)
    requires NoLostWakeup(s) && s.running && s.deliveryQueue != [] && i < |s.couriers| && !s.couriers[i].CourierGone?
    ensures Productive(s, e) && (e.CourierLock? || (e.Deliver? && e.closing == closing))
  {
    match s.couriers[i]
    case CourierReady => e := CourierLock(i);
    case CourierAsleep =>
      var k := SumWitness(s.couriers, CourierIsReady);
      e := CourierLock(k);
    case Carrying(_) => e := Deliver(i, closing);
  }

  lemma ReachedMore(cooks: nat, couriers: nat, events: seq<Event>, s: State, e: Event)
    requires Reached(cooks, couriers, events, s) && Enabled(s, e)
    ensures Reached(cooks, couriers, events + [e], Apply(s, e))
    ensures Closings(events + [e]) == Closings(events) + if e.Deliver? && e.closing then 1 else 0
  {
    hide Enabled, Apply, Init;
    assert (events + [e])[..|events|] == events;
  }

  /** In every reached state of a running shop with a cook, unless every courier has left by closing a
      connection, the run can go on without a new order until all orders are delivered, and the courier
      of the last one can close the connection or not. */
  lemma {:induction false} AllCanBeDelivered(cooks: nat, couriers: nat, events: seq<Event>, s: State, close: bool)
      returns (more: seq<Event>, t: State)
    requires Reached(cooks, couriers, events, s) && s.running && cooks > 0
    requires |s.delivered| < |s.admitted| ==> Closings(events) < couriers
    ensures Reached(cooks, couriers, events + more, t) && t.running && t.admitted == s.admitted
    ensures multiset(AllAsReceived(t.delivered)) == multiset(s.admitted)
    ensures Closings(events + more) == Closings(events) + if close && |s.delivered| < |s.admitted| then 1 else 0
    decreases 8 * |s.admitted| - Progress(s)
  {
    hide Progress, Productive, Run, Gather, Sum, AllAsReceived, Inv;
    RunKeeps(cooks, couriers, events);
    if |s.delivered| < |s.admitted| {
      var e := SomethingToDo(cooks, couriers, events, s, close);
      ProductiveIsEnabled(s, e);
      var u := Apply(s, e);
      ReachedMore(cooks, couriers, events, s, e);
      RunKeeps(cooks, couriers, events + [e]);
      RunningBefore(s, e);
      HistoriesGrow(s, e);
      DeliveriesGrow(s, e);
      NearerToDone(s, e);
      hide Apply, Enabled, Reached;
      var rest: seq<Event>;
      rest, t := AllCanBeDelivered(cooks, couriers, events + [e], u, close);
      more := [e] + rest;
      assert events + more == events + [e] + rest;
    } else {
      more, t := [], s;
      assert events + more == events;
      AllDelivered(cooks, couriers, events, s);
    }
  }

  lemma DeliveriesGrow(s: State, e: Event)
    requires Enabled(s, e)
    ensures |Apply(s, e).delivered| == |s.delivered| + if e.Deliver? then 1 else 0
  {
    hide WakeOven, RemoveFirstById;
  }

  lemma ProductiveIsEnabled(s: State, e: Event)
    requires Productive(s, e)
    ensures Enabled(s, e)
  {
  }

  lemma NearerToDone(s: State, e: Event)
    requires Inv(s) && Productive(s, e) && Inv(Apply(s, e))
    ensures Progress(Apply(s, e)) == Progress(s) + 1
    ensures Progress(s) <= 8 * |s.admitted| && Progress(Apply(s, e)) <= 8 * |Apply(s, e).admitted|
  {
    hide Progress, Gather, Sum;
    ProductiveStepsProgress(s, e);
    ProgressBound(s);
    ProgressBound(Apply(s, e));
  }

  lemma AllDelivered(cooks: nat, couriers: nat, events: seq<Event>, s: State)
    requires Reached(cooks, couriers, events, s) && |s.delivered| >= |s.admitted|
    ensures multiset(AllAsReceived(s.delivered)) == multiset(s.admitted)
  {
    hide Gather, Sum, Run, AllAsReceived, ManagerHand;
    ExactlyOnePlace(cooks, couriers, events, s);
    NotMore(multiset(AllAsReceived(s.delivered)), multiset(s.admitted));
    assert |multiset(s.admitted)| == |s.admitted|;
    SameLength(s.delivered);
  }

  lemma SameLength(orders: seq<Order>)
    ensures |multiset(AllAsReceived(orders))| == |orders|
  {
  }

  lemma NotMore(part: multiset<Order>, whole: multiset<Order>)
    requires part <= whole
    ensures |part| >= |whole| ==> part == whole
  {
    assert whole == part + (whole - part);
    if |part| >= |whole| {
      assert |whole - part| == 0;
      assert whole - part == multiset{};
    }
  }
}
