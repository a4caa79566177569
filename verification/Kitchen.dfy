/** The order pipeline of the shop (Server.c) as a step relation: one manager, any number of
    cooks and couriers, and sessions that admit orders.

    A step is one critical section together with the thread-local code up to the next lock. The
    load of `running` at a loop head needs no step of its own: when it reads 0 the thread leaves,
    and so it does when the load inside the critical section that follows reads 0. A thread
    asleep on a condition variable may wake at any time, so the broadcasts of the signal handler,
    which sleepers can miss, are covered by the wake steps. */
module Kitchen {
  import opened Folds
  import opened ShopQueues

  datatype Manager = ManagerReady | ManagerAsleep | Assigning(order: Order) | ManagerGone

  datatype Cook =
    | CookReady
    | CookAsleep                   // on cook_cond
    | Prepared(order: Order)       // taken from cook_queue, about to lock the oven
    | OvenAsleep(order: Order)     // on oven.cond
    | InOven(order: Order)         // a copy is in the oven
    | TakenOut(order: Order)       // the copy is out again, not yet in delivery_queue
    | CookGone

  datatype Courier = CourierReady | CourierAsleep | Carrying(order: Order) | CourierGone

  /** The shared variables, the threads, and the history of every hand-over. */
  datatype State = State(
    running: bool,
    orderQueue: seq<Order>, cookQueue: seq<Order>, deliveryQueue: seq<Order>, oven: seq<Order>,
    manager: Manager, cooks: seq<Cook>, couriers: seq<Courier>,
    admitted: seq<Order>,    // pushed to order_queue
    picked: seq<Order>,      // taken from cook_queue
    forwarded: seq<Order>,   // pushed to delivery_queue
    collected: seq<Order>,   // taken from delivery_queue
    delivered: seq<Order>,
    skipped: seq<Order>)     // dropped by a courier because the state was not Ready

  datatype Event =
    | Admit(order: Order)
    | ManagerLock
    | ManagerAssign(signalled: Option<nat>)
    | ManagerWake
    | CookLock(i: nat)
    | CookWake(i: nat)
    | OvenLock(i: nat)
    | OvenWake(i: nat)
    | OvenRemove(i: nat)
    | Forward(i: nat, signalled: Option<nat>)
    | CourierLock(i: nat)
    | CourierWake(i: nat)
    | Deliver(i: nat, closing: bool)
    | Shutdown

  function Init(cooks: nat, couriers: nat): State {
    State(true, [], [], [], [], ManagerReady, seq(cooks, _ => CookReady), seq(couriers, _ => CourierReady),
          [], [], [], [], [], [])
  }

  /** pthread_cond_signal: one sleeper, any one, when there is one. */
  ghost predicate CookSignal(cooks: seq<Cook>, w: Option<nat>) {
    match w
    case None => forall i :: 0 <= i < |cooks| ==> !cooks[i].CookAsleep?
    case Some(i) => i < |cooks| && cooks[i].CookAsleep?
  }

  ghost predicate CourierSignal(couriers: seq<Courier>, w: Option<nat>) {
    match w
    case None => forall i :: 0 <= i < |couriers| ==> !couriers[i].CourierAsleep?
    case Some(i) => i < |couriers| && couriers[i].CourierAsleep?
  }

  ghost predicate Enabled(s: State, e: Event) {
    match e
    case Admit(order) => order.state.Received?
    case ManagerLock => s.manager.ManagerReady?
    case ManagerAssign(w) => s.manager.Assigning? && CookSignal(s.cooks, w)
    case ManagerWake => s.manager.ManagerAsleep?
    case CookLock(i) => i < |s.cooks| && s.cooks[i].CookReady?
    case CookWake(i) => i < |s.cooks| && s.cooks[i].CookAsleep?
    case OvenLock(i) => i < |s.cooks| && s.cooks[i].Prepared?
    case OvenWake(i) => i < |s.cooks| && s.cooks[i].OvenAsleep?
    case OvenRemove(i) => i < |s.cooks| && s.cooks[i].InOven?
    case Forward(i, w) => i < |s.cooks| && s.cooks[i].TakenOut? && CourierSignal(s.couriers, w)
    case CourierLock(i) => i < |s.couriers| && s.couriers[i].CourierReady?
    case CourierWake(i) => i < |s.couriers| && s.couriers[i].CourierAsleep?
    case Deliver(i, _) => i < |s.couriers| && s.couriers[i].Carrying?
    case Shutdown => true
  }

  function WakeManager(m: Manager): Manager {
    if m.ManagerAsleep? then ManagerReady else m
  }

  /** pthread_cond_broadcast on oven.cond. */
  function WakeOven(cooks: seq<Cook>): seq<Cook> {
    seq(|cooks|, i requires 0 <= i < |cooks| =>
      if cooks[i].OvenAsleep? then Prepared(cooks[i].order) else cooks[i])
  }

  ghost function Apply(s: State, e: Event): State
    requires Enabled(s, e)
  {
    match e
    case Admit(order) =>
      s.(orderQueue := s.orderQueue + [order], admitted := s.admitted + [order], manager := WakeManager(s.manager))
    case ManagerLock =>
      if !s.running then s.(manager := ManagerGone)
      else if s.orderQueue == [] then s.(manager := ManagerAsleep)
      else s.(manager := Assigning(s.orderQueue[0]), orderQueue := s.orderQueue[1..])
    case ManagerAssign(w) =>
      s.(manager := ManagerReady, cookQueue := s.cookQueue + [s.manager.order],
         cooks := if w.Some? then s.cooks[w.value := CookReady] else s.cooks)
    case ManagerWake => s.(manager := ManagerReady)
    case CookLock(i) =>
      if !s.running then s.(cooks := s.cooks[i := CookGone])
      else if s.cookQueue == [] then s.(cooks := s.cooks[i := CookAsleep])
      else s.(cooks := s.cooks[i := Prepared(s.cookQueue[0])], cookQueue := s.cookQueue[1..],
              picked := s.picked + [s.cookQueue[0]])
    case CookWake(i) => s.(cooks := s.cooks[i := CookReady])
    case OvenLock(i) =>
      var order := s.cooks[i].order;
      if |s.oven| == OVEN_PLACES then s.(cooks := s.cooks[i := OvenAsleep(order)])
      else
        var cooking := order.(state := Cooking);
        s.(oven := s.oven + [cooking], cooks := WakeOven(s.cooks[i := InOven(cooking)]))
    case OvenWake(i) => s.(cooks := s.cooks[i := Prepared(s.cooks[i].order)])
    case OvenRemove(i) =>
      var order := s.cooks[i].order;
      s.(oven := RemoveFirstById(s.oven, order.id), cooks := WakeOven(s.cooks[i := TakenOut(order)]))
    case Forward(i, w) =>
      var ready := s.cooks[i].order.(state := Ready);
      s.(deliveryQueue := s.deliveryQueue + [ready], forwarded := s.forwarded + [ready],
         cooks := s.cooks[i := CookReady],
         couriers := if w.Some? then s.couriers[w.value := CourierReady] else s.couriers)
    case CourierLock(i) =>
      if !s.running then s.(couriers := s.couriers[i := CourierGone])
      else if s.deliveryQueue == [] then s.(couriers := s.couriers[i := CourierAsleep])
      else
        var order := s.deliveryQueue[0];
        var t := s.(deliveryQueue := s.deliveryQueue[1..], collected := s.collected + [order]);
        if order.state != Ready then t.(skipped := s.skipped + [order])
        else t.(couriers := s.couriers[i := Carrying(order)])
    case CourierWake(i) => s.(couriers := s.couriers[i := CourierReady])
    case Deliver(i, closing) =>
      s.(delivered := s.delivered + [s.couriers[i].order.(state := Delivered)],
         couriers := s.couriers[i := if closing then CourierGone else CourierReady])
    case Shutdown => s.(running := false)
  }

  /** The state a run ends in: None when some event of it was not enabled. */
  ghost function Run(s: State, events: seq<Event>): Option<State> {
    if events == [] then Some(s) else
      match Run(s, events[..|events| - 1])
      case None => None
      case Some(t) =>
        var e := events[|events| - 1];
        if Enabled(t, e) then Some(Apply(t, e)) else None
  }

  /* ---- What each thread holds ---- */

  /** The order as it was admitted. */
  function AsReceived(order: Order): Order {
    order.(state := Received)
  }

  function AllAsReceived(orders: seq<Order>): seq<Order> {
    seq(|orders|, i requires 0 <= i < |orders| => AsReceived(orders[i]))
  }

  function ManagerHand(m: Manager): seq<Order> {
    if m.Assigning? then [m.order] else []
  }

  predicate HasOrder(c: Cook) {
    c.Prepared? || c.OvenAsleep? || c.InOven? || c.TakenOut?
  }

  function CookHand(c: Cook): multiset<Order> {
    if HasOrder(c) then multiset{AsReceived(c.order)} else multiset{}
  }

  function OvenCopy(c: Cook): multiset<Order> {
    if c.InOven? then multiset{c.order} else multiset{}
  }

  function OvenId(c: Cook): multiset<int> {
    if c.InOven? then multiset{c.order.id} else multiset{}
  }

  function CourierHand(c: Courier): multiset<Order> {
    if c.Carrying? then multiset{AsReceived(c.order)} else multiset{}
  }

  function CookBusy(c: Cook): int { if HasOrder(c) then 1 else 0 }

  function CookInOven(c: Cook): int { if c.InOven? then 1 else 0 }

  function CookIsReady(c: Cook): int { if c.CookReady? then 1 else 0 }

  function CookIsAwake(c: Cook): int { if c.CookAsleep? then 0 else 1 }

  function CourierBusy(c: Courier): int { if c.Carrying? then 1 else 0 }

  function CourierIsReady(c: Courier): int { if c.CourierReady? then 1 else 0 }

  /** Hand-overs an order in these hands has behind it. */
  function CookRank(c: Cook): int {
    match c
    case Prepared(_) => 3
    case OvenAsleep(_) => 3
    case InOven(_) => 4
    case TakenOut(_) => 5
    case _ => 0
  }

  function CourierRank(c: Courier): int { if c.Carrying? then 7 else 0 }

  /** The hand-overs done so far, read off where the orders are. */
  function Progress(s: State): int {
    |ManagerHand(s.manager)| + 2 * |s.cookQueue| + Sum(s.cooks, CookRank) + 6 * |s.deliveryQueue|
    + Sum(s.couriers, CourierRank) + 8 * |s.delivered| + 7 * |s.skipped|
  }

  /** The steps that hand an order on. */
  ghost predicate Productive(s: State, e: Event) {
    && Enabled(s, e)
    && match e
       case ManagerLock => s.running && s.orderQueue != []
       case ManagerAssign(_) => true
       case CookLock(_) => s.running && s.cookQueue != []
       case OvenLock(_) => |s.oven| != OVEN_PLACES
       case OvenRemove(_) => true
       case Forward(_, _) => true
       case CourierLock(_) => s.running && s.deliveryQueue != []
       case Deliver(_, _) => true
       case _ => false
  }

  /** How many steps of a run handed an order on. */
  ghost function Handovers(s: State, events: seq<Event>): nat
    requires Run(s, events).Some?
  {
    if events == [] then 0 else
      var before := events[..|events| - 1];
      var t := Run(s, before).value;
      Handovers(s, before) + if Productive(t, events[|events| - 1]) then 1 else 0
  }

  ghost predicate DistinctIds(orders: seq<Order>) {
    forall i, j :: 0 <= i < j < |orders| ==> orders[i].id != orders[j].id
  }
}
