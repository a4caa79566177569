/** Every hand-over moves one order one stage on, and nothing else moves an order. */
module KitchenStages {
  import opened Folds
  import opened ShopQueues
  import opened Kitchen

  /** An order, as it was admitted, with how far it has come: in order_queue (0), with the manager (1),
      in cook_queue (2), prepared (3), in the oven (4), out of it (5), in delivery_queue (6), with a
      courier (7), delivered (8). */
  datatype Placed = Placed(order: Order, stage: int)

  function At(orders: seq<Order>, stage: int): multiset<Placed> {
    multiset(seq(|orders|, i requires 0 <= i < |orders| => Placed(AsReceived(orders[i]), stage)))
  }

  function CookPlace(c: Cook): multiset<Placed> {
    if HasOrder(c) then multiset{Placed(AsReceived(c.order), CookRank(c))} else multiset{}
  }

  function CourierPlace(c: Courier): multiset<Placed> {
    if c.Carrying? then multiset{Placed(AsReceived(c.order), 7)} else multiset{}
  }

  /** On the way to a cook. */
  function Front(s: State): multiset<Placed> {
    At(s.orderQueue, 0) + At(ManagerHand(s.manager), 1) + At(s.cookQueue, 2)
  }

  function WithCooks(s: State): multiset<Placed> {
    Gather(s.cooks, CookPlace)
  }

  /** Forwarded by a cook. */
  function Back(s: State): multiset<Placed> {
    At(s.deliveryQueue, 6) + Gather(s.couriers, CourierPlace) + At(s.skipped, 7) + At(s.delivered, 8)
  }

  function Places(s: State): multiset<Placed> {
    Front(s) + WithCooks(s) + Back(s)
  }

  lemma AtPush(orders: seq<Order>, order: Order, stage: int)
    ensures At(orders + [order], stage) == At(orders, stage) + multiset{Placed(AsReceived(order), stage)}
  {
    var places := (os: seq<Order>) => seq(|os|, i requires 0 <= i < |os| => Placed(AsReceived(os[i]), stage));
    assert places(orders + [order]) == places(orders) + [Placed(AsReceived(order), stage)];
  }

  lemma AtPop(orders: seq<Order>, stage: int)
    requires orders != []
    ensures At(orders, stage) == At(orders[1..], stage) + multiset{Placed(AsReceived(orders[0]), stage)}
  {
    var places := (os: seq<Order>) => seq(|os|, i requires 0 <= i < |os| => Placed(AsReceived(os[i]), stage));
    assert places(orders) == [Placed(AsReceived(orders[0]), stage)] + places(orders[1..]);
  }

  lemma AtNone(stage: int)
    ensures At([], stage) == multiset{}
  {
  }

  /** The order a productive step hands on. */
  ghost function Handed(s: State, e: Event): Placed
    requires Productive(s, e)
  {
    match e
    case ManagerLock => Placed(AsReceived(s.orderQueue[0]), 0)
    case ManagerAssign(_) => Placed(AsReceived(s.manager.order), 1)
    case CookLock(_) => Placed(AsReceived(s.cookQueue[0]), 2)
    case OvenLock(i) => Placed(AsReceived(s.cooks[i].order), 3)
    case OvenRemove(i) => Placed(AsReceived(s.cooks[i].order), 4)
    case Forward(i, _) => Placed(AsReceived(s.cooks[i].order), 5)
    case CourierLock(_) => Placed(AsReceived(s.deliveryQueue[0]), 6)
    case Deliver(i, _) => Placed(AsReceived(s.couriers[i].order), 7)
  }

  /** Whatever one part loses and the same or the next one gains. */
  ghost predicate Swaps(before: multiset<Placed>, after: multiset<Placed>, p: Placed) {
    before + multiset{Placed(p.order, p.stage + 1)} == after + multiset{p}
  }

  lemma ManagerTakes(s: State)
    requires Productive(s, ManagerLock)
    ensures Swaps(Front(s), Front(Apply(s, ManagerLock)), Handed(s, ManagerLock))
  {
    hide At;
    var order := s.orderQueue[0];
    AtPop(s.orderQueue, 0);
    AtNone(1);
    AtPush([], order, 1);
    assert [] + [order] == [order];
  }

  lemma ManagerPasses(s: State, e: Event)
    requires e.ManagerAssign? && Productive(s, e)
    ensures Swaps(Front(s), Front(Apply(s, e)), Handed(s, e))
  {
    hide At;
    var order := s.manager.order;
    AtPush(s.cookQueue, order, 2);
    AtNone(1);
    AtPush([], order, 1);
    assert [] + [order] == [order];
  }

  lemma SignalMovesNothing(s: State, e: Event)
    requires e.ManagerAssign? && Productive(s, e)
    ensures WithCooks(Apply(s, e)) == WithCooks(s)
  {
    hide Gather;
    if e.signalled.Some? {
      GatherKeep(s.cooks, e.signalled.value, CookReady, CookPlace);
    }
  }

  lemma CookTakes(s: State, i: nat)
    requires Productive(s, CookLock(i))
    ensures var t := Apply(s, CookLock(i));
            Swaps(Front(s) + WithCooks(s), Front(t) + WithCooks(t), Handed(s, CookLock(i))) && Back(t) == Back(s)
  {
    hide At, Gather;
    AtPop(s.cookQueue, 2);
    GatherGain(s.cooks, i, Prepared(s.cookQueue[0]), CookPlace);
    hide Handed;
  }

  lemma WokenSame(cooks: seq<Cook>)
    ensures Gather(WakeOven(cooks), CookPlace) == Gather(cooks, CookPlace)
  {
    hide Gather;
    GatherSame(WakeOven(cooks), cooks, CookPlace);
  }

  /** A cook's move in or out of the oven, with the broadcast that follows. */
  lemma OvenMove(cooks: seq<Cook>, i: nat, c: Cook)
    requires i < |cooks|
    ensures Gather(cooks, CookPlace) + CookPlace(c) == Gather(WakeOven(cooks[i := c]), CookPlace) + CookPlace(cooks[i])
  {
    hide Gather, WakeOven, CookPlace;
    GatherUpdate(cooks, i, c, CookPlace);
    WokenSame(cooks[i := c]);
    Exchanged(Gather(cooks, CookPlace), CookPlace(cooks[i]), CookPlace(c));
  }

  lemma Exchanged(whole: multiset<Placed>, out: multiset<Placed>, back: multiset<Placed>)
    requires out <= whole
    ensures whole + back == whole - out + back + out
  {
  }

  lemma OvenMoves(s: State, e: Event)
    requires Productive(s, e) && (e.OvenLock? || e.OvenRemove?)
    ensures Swaps(WithCooks(s), WithCooks(Apply(s, e)), Handed(s, e))
  {
    hide Gather, WakeOven, RemoveFirstById;
    var order := s.cooks[e.i].order;
    OvenMove(s.cooks, e.i, if e.OvenLock? then InOven(order.(state := Cooking)) else TakenOut(order));
  }

  lemma CookLetsGo(s: State, e: Event)
    requires e.Forward? && Productive(s, e)
    ensures WithCooks(s) == WithCooks(Apply(s, e)) + multiset{Handed(s, e)}
  {
    hide At, Gather;
    GatherLose(s.cooks, e.i, CookReady, CookPlace);
  }

  lemma DeliveriesGain(s: State, e: Event)
    requires e.Forward? && Productive(s, e)
    ensures var p := Handed(s, e); Back(Apply(s, e)) == Back(s) + multiset{Placed(p.order, p.stage + 1)}
  {
    hide At, Gather;
    AtPush(s.deliveryQueue, s.cooks[e.i].order.(state := Ready), 6);
    if e.signalled.Some? {
      GatherKeep(s.couriers, e.signalled.value, CourierReady, CourierPlace);
    }
  }

  lemma CookForwards(s: State, e: Event)
    requires e.Forward? && Productive(s, e)
    ensures var t := Apply(s, e); Swaps(WithCooks(s) + Back(s), WithCooks(t) + Back(t), Handed(s, e))
  {
    CookLetsGo(s, e);
    DeliveriesGain(s, e);
    hide WithCooks, Back, Apply, Handed;
  }

  lemma CourierTakes(s: State, i: nat)
    requires Productive(s, CourierLock(i))
    ensures Swaps(Back(s), Back(Apply(s, CourierLock(i))), Handed(s, CourierLock(i)))
  {
    hide At, Gather;
    var order := s.deliveryQueue[0];
    AtPop(s.deliveryQueue, 6);
    if order.state == Ready {
      GatherGain(s.couriers, i, Carrying(order), CourierPlace);
    } else {
      AtPush(s.skipped, order, 7);
    }
  }

  lemma CourierDelivers(s: State, e: Event)
    requires e.Deliver? && Productive(s, e)
    ensures Swaps(Back(s), Back(Apply(s, e)), Handed(s, e))
  {
    hide At, Gather;
    GatherLose(s.couriers, e.i, Apply(s, e).couriers[e.i], CourierPlace);
    AtPush(s.delivered, s.couriers[e.i].order.(state := Delivered), 8);
  }

  /** The parts a step has no business with. */
  lemma PartsStay(s: State, e: Event)
    requires Enabled(s, e)
    ensures !e.Admit? && e != ManagerLock && !e.ManagerAssign? && !e.CookLock? ==> Front(Apply(s, e)) == Front(s)
    ensures e.Admit? || e == ManagerLock || e.CourierLock? || e.Deliver? ==> WithCooks(Apply(s, e)) == WithCooks(s)
    ensures !e.Forward? && !e.CourierLock? && !e.CourierWake? && !e.Deliver? ==> Back(Apply(s, e)) == Back(s)
  {
    hide At, Gather, WakeOven, RemoveFirstById;
  }

  predicate ByCook(e: Event) {
    e.CookLock? || e.CookWake? || e.OvenLock? || e.OvenWake?
  }

  lemma IdleCookMove(s: State, e: Event)
    requires Enabled(s, e) && !Productive(s, e) && ByCook(e)
    ensures e.i < |s.cooks| == |Apply(s, e).cooks| && Apply(s, e).cooks == s.cooks[e.i := Apply(s, e).cooks[e.i]]
    ensures CookPlace(Apply(s, e).cooks[e.i]) == CookPlace(s.cooks[e.i])
  {
    match e
    case CookLock(i) => SameButOne(s.cooks, i, if s.running then CookAsleep else CookGone);
    case CookWake(i) => SameButOne(s.cooks, i, CookReady);
    case OvenLock(i) => SameButOne(s.cooks, i, OvenAsleep(s.cooks[i].order));
    case OvenWake(i) => SameButOne(s.cooks, i, Prepared(s.cooks[i].order));
  }

  lemma SameButOne(cooks: seq<Cook>, i: nat, c: Cook)
    requires i < |cooks|
    ensures cooks[i := c] == cooks[i := cooks[i := c][i]] && cooks[i := c][i] == c
  {
  }

  lemma NoCook(s: State, e: Event)
    requires Enabled(s, e) && !Productive(s, e) && !ByCook(e)
    ensures Apply(s, e).cooks == s.cooks
  {
    hide WakeOven, RemoveFirstById;
  }

  lemma IdleCooks(s: State, e: Event)
    requires Enabled(s, e) && !Productive(s, e)
    ensures WithCooks(Apply(s, e)) == WithCooks(s)
  {
    hide Gather, Apply, Enabled, Productive, CookPlace;
    if ByCook(e) {
      IdleCookMove(s, e);
      GatherKeep(s.cooks, e.i, Apply(s, e).cooks[e.i], CookPlace);
    } else {
      NoCook(s, e);
    }
  }

  lemma IdleCouriers(s: State, e: Event)
    requires Enabled(s, e) && !Productive(s, e)
    ensures Back(Apply(s, e)) == Back(s)
  {
    hide At, Gather;
    match e
    case CourierLock(i) => GatherKeep(s.couriers, i, Apply(s, e).couriers[i], CourierPlace);
    case CourierWake(i) => GatherKeep(s.couriers, i, CourierReady, CourierPlace);
    case _ =>
  }

  lemma Arrivals(s: State, e: Event)
    requires Enabled(s, e) && !Productive(s, e)
    ensures Front(Apply(s, e)) == Front(s) + if e.Admit? then multiset{Placed(AsReceived(e.order), 0)} else multiset{}
  {
    hide At, WakeOven, RemoveFirstById;
    if e.Admit? {
      AtPush(s.orderQueue, e.order, 0);
    }
  }

  /** A part's exchange is one of the whole. */
  lemma Wider(before: multiset<Placed>, after: multiset<Placed>, rest: multiset<Placed>, p: Placed)
    requires Swaps(before, after, p)
    ensures Swaps(before + rest, after + rest, p) && Swaps(rest + before, rest + after, p)
  {
    var q := Placed(p.order, p.stage + 1);
    assert before + rest + multiset{q} == before + multiset{q} + rest;
    assert after + rest + multiset{p} == after + multiset{p} + rest;
    assert rest + before + multiset{q} == before + multiset{q} + rest;
    assert rest + after + multiset{p} == after + multiset{p} + rest;
  }

  lemma HandedOn(s: State, e: Event)
    requires Productive(s, e)
    ensures Swaps(Places(s), Places(Apply(s, e)), Handed(s, e))
  {
    PartsStay(s, e);
    hide Front, WithCooks, Back, Apply, Enabled, Handed, Swaps;
    var t, p := Apply(s, e), Handed(s, e);
    match e
    case ManagerLock =>
      ManagerTakes(s);
      Wider(Front(s), Front(t), WithCooks(s), p);
      Wider(Front(s) + WithCooks(s), Front(t) + WithCooks(t), Back(s), p);
    case ManagerAssign(_) =>
      ManagerPasses(s, e);
      SignalMovesNothing(s, e);
      Wider(Front(s), Front(t), WithCooks(s), p);
      Wider(Front(s) + WithCooks(s), Front(t) + WithCooks(t), Back(s), p);
    case CookLock(i) =>
      CookTakes(s, i);
      Wider(Front(s) + WithCooks(s), Front(t) + WithCooks(t), Back(s), p);
    case OvenLock(_) => CookAlone(s, e);
    case OvenRemove(_) => CookAlone(s, e);
    case Forward(_, _) =>
      CookForwards(s, e);
      Wider(WithCooks(s) + Back(s), WithCooks(t) + Back(t), Front(s), p);
      Assoc(Front(s), WithCooks(s), Back(s));
      Assoc(Front(t), WithCooks(t), Back(t));
    case CourierLock(i) =>
      CourierTakes(s, i);
      Wider(Back(s), Back(t), Front(s) + WithCooks(s), p);
    case Deliver(_, _) =>
      CourierDelivers(s, e);
      Wider(Back(s), Back(t), Front(s) + WithCooks(s), p);
  }

  lemma CookAlone(s: State, e: Event)
    requires Productive(s, e) && (e.OvenLock? || e.OvenRemove?)
    ensures Swaps(Places(s), Places(Apply(s, e)), Handed(s, e))
  {
    PartsStay(s, e);
    OvenMoves(s, e);
    hide Front, WithCooks, Back, Apply, Enabled, Handed, Swaps;
    var t, p := Apply(s, e), Handed(s, e);
    Wider(WithCooks(s), WithCooks(t), Front(s), p);
    Wider(Front(s) + WithCooks(s), Front(t) + WithCooks(t), Back(s), p);
  }

  lemma Assoc(a: multiset<Placed>, b: multiset<Placed>, c: multiset<Placed>)
    ensures a + (b + c) == a + b + c
  {
  }

  /** A productive step moves exactly one order exactly one stage on; any other step moves none, and
      an admission puts one in at the start. */
  lemma OneOrderOneStage(s: State, e: Event)
    requires Enabled(s, e)
    ensures if Productive(s, e) then
              var p := Handed(s, e);
              p in Places(s) && Places(Apply(s, e)) == Places(s) - multiset{p} + multiset{Placed(p.order, p.stage + 1)}
            else Places(Apply(s, e)) == Places(s) + if e.Admit? then multiset{Placed(AsReceived(e.order), 0)} else multiset{}
  {
    hide Front, WithCooks, Back, Apply, Enabled, Productive, Handed, Swaps;
    if Productive(s, e) {
      hide Places;
      HandedOn(s, e);
      OneMoved(Places(s), Places(Apply(s, e)), Handed(s, e));
    } else {
      Arrivals(s, e);
      IdleCooks(s, e);
      IdleCouriers(s, e);
    }
  }

  lemma OneMoved(before: multiset<Placed>, after: multiset<Placed>, p: Placed)
    requires Swaps(before, after, p)
    ensures p in before && after == before - multiset{p} + multiset{Placed(p.order, p.stage + 1)}
  {
    var q := Placed(p.order, p.stage + 1);
    assert q != p;
    assert (before + multiset{q})[p] == before[p] && (after + multiset{p})[p] > 0;
    assert before + multiset{q} - multiset{p} == before - multiset{p} + multiset{q};
    assert after + multiset{p} - multiset{p} == after;
  }
}
