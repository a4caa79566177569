/** What every interleaving of the kitchen keeps. */
module KitchenSafety {
  import opened Folds
  import opened ShopQueues
  import opened Kitchen

  /** Where an order is decides its state. */
  ghost predicate StateMatchesPlace(s: State) {
    && (forall i :: 0 <= i < |s.admitted| ==> s.admitted[i].state == Received)
    && (forall i :: 0 <= i < |s.forwarded| ==> s.forwarded[i].state == Ready)
    && (forall i :: 0 <= i < |s.delivered| ==> s.delivered[i].state == Delivered)
    && (forall i :: 0 <= i < |s.oven| ==> s.oven[i].state == Cooking)
    && (forall i :: 0 <= i < |s.cooks| ==>
          && ((s.cooks[i].Prepared? || s.cooks[i].OvenAsleep?) ==> s.cooks[i].order.state == Received)
          && ((s.cooks[i].InOven? || s.cooks[i].TakenOut?) ==> s.cooks[i].order.state == Cooking))
    && (forall i :: 0 <= i < |s.couriers| && s.couriers[i].Carrying? ==> s.couriers[i].order.state == Ready)
    && s.skipped == []
  }

  /** The queues are cut out of the admission order, the delivery queue out of the forwarding order. */
  ghost predicate Fifo(s: State) {
    && s.admitted == s.picked + s.cookQueue + ManagerHand(s.manager) + s.orderQueue
    && s.forwarded == s.collected + s.deliveryQueue
  }

  /** Every picked order is in one cook's hand or was forwarded; every collected one is with one
      courier or was delivered. */
  ghost predicate HandsAddUp(s: State) {
    && multiset(s.picked) == Gather(s.cooks, CookHand) + multiset(AllAsReceived(s.forwarded))
    && multiset(AllAsReceived(s.collected)) == Gather(s.couriers, CourierHand) + multiset(AllAsReceived(s.delivered))
  }

  ghost predicate OvenAgrees(s: State) {
    && |s.oven| <= OVEN_PLACES
    && multiset(Ids(s.oven)) == Gather(s.cooks, OvenId)
    && (DistinctIds(s.admitted) ==> multiset(s.oven) == Gather(s.cooks, OvenCopy))
    && (forall i :: 0 <= i < |s.cooks| && s.cooks[i].OvenAsleep? ==> |s.oven| == OVEN_PLACES)
  }

  /** While the shop runs, whoever sleeps on a queue leaves enough awake threads, at their lock,
      to take every entry of it. */
  ghost predicate NoLostWakeup(s: State) {
    s.running ==>
      && (s.manager.ManagerAsleep? ==> s.orderQueue == [])
      && !s.manager.ManagerGone?
      && (forall i :: 0 <= i < |s.cooks| ==> !s.cooks[i].CookGone?)
      && (forall i :: 0 <= i < |s.cooks| && s.cooks[i].CookAsleep? ==> Sum(s.cooks, CookIsReady) >= |s.cookQueue|)
      && (forall i :: 0 <= i < |s.couriers| && s.couriers[i].CourierAsleep? ==>
            Sum(s.couriers, CourierIsReady) >= |s.deliveryQueue|)
  }

  ghost predicate Inv(s: State) {
    StateMatchesPlace(s) && Fifo(s) && HandsAddUp(s) && OvenAgrees(s) && NoLostWakeup(s)
  }

  lemma InitTotals(cooks: nat, couriers: nat)
    ensures var s := Init(cooks, couriers);
            && Gather(s.cooks, CookHand) == multiset{} && Gather(s.couriers, CourierHand) == multiset{}
            && Gather(s.cooks, OvenId) == multiset{} && Gather(s.cooks, OvenCopy) == multiset{}
  {
    hide Gather;
    var s := Init(cooks, couriers);
    GatherEmpty(s.cooks, CookHand);
    GatherEmpty(s.cooks, OvenId);
    GatherEmpty(s.cooks, OvenCopy);
    GatherEmpty(s.couriers, CourierHand);
  }

  lemma InitInv(cooks: nat, couriers: nat)
    ensures Inv(Init(cooks, couriers))
  {
    hide Gather, Sum;
    InitTotals(cooks, couriers);
    assert AllAsReceived([]) == [] && Ids([]) == [];
    hide AllAsReceived, Ids;
  }

  /* ---- The oven's search ---- */

  /** An order in a cook's hand was admitted. */
  lemma HeldIsAdmitted(s: State, i: nat)
    requires Fifo(s) && HandsAddUp(s) && i < |s.cooks| && HasOrder(s.cooks[i])
    ensures AsReceived(s.cooks[i].order) in s.admitted
  {
    GatherMember(s.cooks, i, CookHand);
    assert AsReceived(s.cooks[i].order) in CookHand(s.cooks[i]);
    assert AsReceived(s.cooks[i].order) in multiset(s.picked);
  }

  /** The search of the remove phase always finds an entry; with distinct ids it is the cook's own. */
  lemma FindOwn(s: State, i: nat) returns (k: nat)
    requires Fifo(s) && HandsAddUp(s) && OvenAgrees(s) && StateMatchesPlace(s)
    requires i < |s.cooks| && s.cooks[i].InOven?
    ensures FirstWithId(s.oven, k, s.cooks[i].order.id)
    ensures DistinctIds(s.admitted) ==> s.oven[k] == s.cooks[i].order
  {
    hide Gather, Sum;
    var own := s.cooks[i].order;
    GatherMember(s.cooks, i, OvenId);
    assert own.id in multiset(Ids(s.oven));
    k := FindById(s.oven, own.id);
    if DistinctIds(s.admitted) {
      assert s.oven[k] in multiset(s.oven);
      var j := GatherWitness(s.cooks, OvenCopy, s.oven[k]);
      HeldIsAdmitted(s, i);
      HeldIsAdmitted(s, j);
    }
  }

  lemma RemovedIds(orders: seq<Order>, k: nat)
    requires k < |orders|
    ensures multiset(Ids(orders[..k] + orders[k + 1..])) == multiset(Ids(orders)) - multiset{orders[k].id}
  {
    var ids := Ids(orders);
    assert Ids(orders[..k] + orders[k + 1..]) == ids[..k] + ids[k + 1..];
    assert ids == ids[..k] + [ids[k]] + ids[k + 1..];
  }

  /* ---- State and place ---- */

  lemma OvenRemoveKeepsStates(s: State, e: Event)
    requires Inv(s) && Enabled(s, e) && e.OvenRemove?
    ensures StateMatchesPlace(Apply(s, e))
  {
    hide Gather, Sum, NoLostWakeup;
    var k := FindOwn(s, e.i);
    RemoveFirstByIdAt(s.oven, k, s.cooks[e.i].order.id);
  }

  lemma CookStepKeepsStates(s: State, e: Event)
    requires StateMatchesPlace(s) && Fifo(s) && Enabled(s, e) && (e.CookLock? || e.OvenLock? || e.Forward?)
    ensures StateMatchesPlace(Apply(s, e))
  {
    if e.CookLock? && s.running && s.cookQueue != [] {
      assert s.cookQueue[0] == s.admitted[|s.picked|];
    }
  }

  lemma StateKept(s: State, e: Event)
    requires Inv(s) && Enabled(s, e)
    ensures StateMatchesPlace(Apply(s, e))
  {
    hide Gather, Sum, NoLostWakeup, HandsAddUp, OvenAgrees, RemoveFirstById;
    if e.OvenRemove? {
      OvenRemoveKeepsStates(s, e);
    } else if e.CookLock? || e.OvenLock? || e.Forward? {
      CookStepKeepsStates(s, e);
    } else if e.CourierLock? && s.running && s.deliveryQueue != [] {
      assert s.deliveryQueue[0] == s.forwarded[|s.collected|];
    }
  }

  lemma FifoKept(s: State, e: Event)
    requires Fifo(s) && Enabled(s, e)
    ensures Fifo(Apply(s, e))
  {
    hide Fifo, Apply;
    match e
    case Admit(order) => AdmitKeepsFifo(s, order);
    case ManagerLock => ManagerKeepsFifo(s, e);
    case ManagerAssign(_) => ManagerKeepsFifo(s, e);
    case CookLock(i) => CookLockKeepsFifo(s, i);
    case Forward(_, _) => DeliveriesKeepFifo(s, e);
    case CourierLock(_) => DeliveriesKeepFifo(s, e);
    case _ => OthersKeepFifo(s, e);
  }

  lemma AdmitKeepsFifo(s: State, order: Order)
    requires Fifo(s) && Enabled(s, Admit(order))
    ensures Fifo(Apply(s, Admit(order)))
  {
  }

  lemma ManagerKeepsFifo(s: State, e: Event)
    requires Fifo(s) && Enabled(s, e) && (e == ManagerLock || e.ManagerAssign?)
    ensures Fifo(Apply(s, e))
  {
    hide CookSignal;
  }

  lemma CookLockKeepsFifo(s: State, i: nat)
    requires Fifo(s) && Enabled(s, CookLock(i))
    ensures Fifo(Apply(s, CookLock(i)))
  {
  }

  lemma DeliveriesKeepFifo(s: State, e: Event)
    requires Fifo(s) && Enabled(s, e) && (e.Forward? || e.CourierLock?)
    ensures Fifo(Apply(s, e))
  {
    hide CourierSignal;
  }

  lemma OthersKeepFifo(s: State, e: Event)
    requires Fifo(s) && Enabled(s, e)
    requires !e.Admit? && e != ManagerLock && !e.ManagerAssign? && !e.CookLock? && !e.Forward? && !e.CourierLock?
    ensures Fifo(Apply(s, e))
  {
    hide WakeOven, RemoveFirstById;
  }

  /* ---- Hands ---- */

  /** The steps of the cooks between taking an order and forwarding it move no order. */
  lemma CooksKeepHands(s: State, e: Event)
    requires Enabled(s, e) && !e.CookLock? && !e.Forward?
    ensures Gather(Apply(s, e).cooks, CookHand) == Gather(s.cooks, CookHand)
  {
    hide Gather, WakeOven, RemoveFirstById;
    match e
    case ManagerAssign(w) =>
      if w.Some? {
        GatherKeep(s.cooks, w.value, CookReady, CookHand);
      }
    case CookWake(i) => GatherKeep(s.cooks, i, CookReady, CookHand);
    case OvenWake(i) => GatherKeep(s.cooks, i, Prepared(s.cooks[i].order), CookHand);
    case OvenLock(i) =>
      if |s.oven| == OVEN_PLACES {
        GatherKeep(s.cooks, i, OvenAsleep(s.cooks[i].order), CookHand);
      } else {
        MoveAndWake(s.cooks, i, InOven(s.cooks[i].order.(state := Cooking)));
      }
    case OvenRemove(i) => MoveAndWake(s.cooks, i, TakenOut(s.cooks[i].order));
    case _ =>
  }

  lemma MoveAndWake(cooks: seq<Cook>, i: nat, c: Cook)
    requires i < |cooks| && CookHand(c) == CookHand(cooks[i])
    ensures Gather(WakeOven(cooks[i := c]), CookHand) == Gather(cooks, CookHand)
  {
    GatherKeep(cooks, i, c, CookHand);
    GatherSame(WakeOven(cooks[i := c]), cooks[i := c], CookHand);
  }

  lemma CouriersKeepHands(s: State, e: Event)
    requires Enabled(s, e) && !e.CourierLock? && !e.Deliver?
    ensures Gather(Apply(s, e).couriers, CourierHand) == Gather(s.couriers, CourierHand)
  {
    GatherSame(Apply(s, e).couriers, s.couriers, CourierHand);
  }

  lemma AllAsReceivedAppend(orders: seq<Order>, order: Order)
    ensures multiset(AllAsReceived(orders + [order])) == multiset(AllAsReceived(orders)) + multiset{AsReceived(order)}
  {
    assert AllAsReceived(orders + [order]) == AllAsReceived(orders) + [AsReceived(order)];
  }

  lemma CookTakesOrder(s: State, i: nat)
    requires HandsAddUp(s) && i < |s.cooks| && s.cooks[i].CookReady? && s.cookQueue != []
    requires s.cookQueue[0].state == Received
    ensures multiset(s.picked + [s.cookQueue[0]])
         == Gather(s.cooks[i := Prepared(s.cookQueue[0])], CookHand) + multiset(AllAsReceived(s.forwarded))
  {
    hide Gather, Sum, AllAsReceived;
    GatherGain(s.cooks, i, Prepared(s.cookQueue[0]), CookHand);
  }

  lemma CookForwardsOrder(s: State, i: nat)
    requires HandsAddUp(s) && i < |s.cooks| && s.cooks[i].TakenOut?
    ensures multiset(s.picked) == Gather(s.cooks[i := CookReady], CookHand)
                                + multiset(AllAsReceived(s.forwarded + [s.cooks[i].order.(state := Ready)]))
  {
    hide Gather, Sum, AllAsReceived;
    GatherLose(s.cooks, i, CookReady, CookHand);
    AllAsReceivedAppend(s.forwarded, s.cooks[i].order.(state := Ready));
  }

  lemma CookHandsKept(s: State, e: Event)
    requires Fifo(s) && HandsAddUp(s) && StateMatchesPlace(s) && Enabled(s, e)
    ensures multiset(Apply(s, e).picked)
         == Gather(Apply(s, e).cooks, CookHand) + multiset(AllAsReceived(Apply(s, e).forwarded))
  {
    hide Gather, Sum, AllAsReceived, WakeOven, RemoveFirstById, CookSignal, CourierSignal, Fifo, StateMatchesPlace;
    match e
    case CookLock(i) => CookLockKeepsHands(s, i);
    case Forward(i, _) => CookForwardsOrder(s, i);
    case _ =>
      CooksKeepHands(s, e);
      CookHistoriesStay(s, e);
      hide Apply, Enabled;
  }

  lemma CookLockKeepsHands(s: State, i: nat)
    requires Fifo(s) && HandsAddUp(s) && StateMatchesPlace(s) && Enabled(s, CookLock(i))
    ensures multiset(Apply(s, CookLock(i)).picked)
         == Gather(Apply(s, CookLock(i)).cooks, CookHand) + multiset(AllAsReceived(Apply(s, CookLock(i)).forwarded))
  {
    hide Gather, Sum, AllAsReceived;
    if s.running && s.cookQueue != [] {
      assert s.cookQueue[0] == s.admitted[|s.picked|];
      CookTakesOrder(s, i);
    } else {
      GatherKeep(s.cooks, i, Apply(s, CookLock(i)).cooks[i], CookHand);
    }
  }

  lemma CookHistoriesStay(s: State, e: Event)
    requires Enabled(s, e) && !e.CookLock? && !e.Forward?
    ensures Apply(s, e).picked == s.picked && Apply(s, e).forwarded == s.forwarded
  {
    hide WakeOven, RemoveFirstById;
  }

  lemma CourierLockKeepsHands(s: State, i: nat)
    requires Fifo(s) && HandsAddUp(s) && StateMatchesPlace(s) && Enabled(s, CourierLock(i))
    ensures multiset(AllAsReceived(Apply(s, CourierLock(i)).collected))
         == Gather(Apply(s, CourierLock(i)).couriers, CourierHand)
          + multiset(AllAsReceived(Apply(s, CourierLock(i)).delivered))
  {
    hide Gather, Sum, AllAsReceived;
    if s.running && s.deliveryQueue != [] {
      var order := s.deliveryQueue[0];
      assert order == s.forwarded[|s.collected|];
      GatherGain(s.couriers, i, Carrying(order), CourierHand);
      AllAsReceivedAppend(s.collected, order);
    } else {
      GatherKeep(s.couriers, i, Apply(s, CourierLock(i)).couriers[i], CourierHand);
    }
  }

  lemma DeliveryKeepsHands(s: State, e: Event)
    requires HandsAddUp(s) && e.Deliver? && Enabled(s, e)
    ensures multiset(AllAsReceived(Apply(s, e).collected))
         == Gather(Apply(s, e).couriers, CourierHand) + multiset(AllAsReceived(Apply(s, e).delivered))
  {
    hide Gather, Sum, AllAsReceived;
    GatherLose(s.couriers, e.i, Apply(s, e).couriers[e.i], CourierHand);
    AllAsReceivedAppend(s.delivered, s.couriers[e.i].order.(state := Delivered));
  }

  lemma CourierHandsKept(s: State, e: Event)
    requires Fifo(s) && HandsAddUp(s) && StateMatchesPlace(s) && Enabled(s, e)
    ensures multiset(AllAsReceived(Apply(s, e).collected))
         == Gather(Apply(s, e).couriers, CourierHand) + multiset(AllAsReceived(Apply(s, e).delivered))
  {
    hide Gather, Sum, AllAsReceived, Apply, Fifo, StateMatchesPlace;
    match e
    case CourierLock(i) => CourierLockKeepsHands(s, i);
    case Deliver(_, _) => DeliveryKeepsHands(s, e);
    case _ =>
      CouriersKeepHands(s, e);
      CourierHistoriesStay(s, e);
  }

  lemma CourierHistoriesStay(s: State, e: Event)
    requires Enabled(s, e) && !e.CourierLock? && !e.Deliver?
    ensures Apply(s, e).collected == s.collected && Apply(s, e).delivered == s.delivered
  {
    hide WakeOven, RemoveFirstById;
  }

  /* ---- Oven ---- */

  lemma Cancel<T>(whole: multiset<T>, rest: multiset<T>, x: T)
    requires whole == rest + multiset{x}
    ensures whole - multiset{x} == rest
  {
  }

  /** A cook puts its order in and the sleepers wake. */
  lemma CookGoesIn(cooks: seq<Cook>, i: nat, order: Order)
    requires i < |cooks| && !cooks[i].InOven?
    ensures Gather(WakeOven(cooks[i := InOven(order)]), OvenId) == Gather(cooks, OvenId) + multiset{order.id}
    ensures Gather(WakeOven(cooks[i := InOven(order)]), OvenCopy) == Gather(cooks, OvenCopy) + multiset{order}
  {
    hide Gather;
    var after := cooks[i := InOven(order)];
    GatherGain(cooks, i, InOven(order), OvenId);
    GatherGain(cooks, i, InOven(order), OvenCopy);
    GatherSame(WakeOven(after), after, OvenId);
    GatherSame(WakeOven(after), after, OvenCopy);
    hide WakeOven;
  }

  /** A cook takes its order out and the sleepers wake. */
  lemma CookGoesOut(cooks: seq<Cook>, i: nat)
    requires i < |cooks| && cooks[i].InOven?
    ensures var after := WakeOven(cooks[i := TakenOut(cooks[i].order)]);
            && Gather(cooks, OvenId) == Gather(after, OvenId) + multiset{cooks[i].order.id}
            && Gather(cooks, OvenCopy) == Gather(after, OvenCopy) + multiset{cooks[i].order}
  {
    hide Gather;
    var out := TakenOut(cooks[i].order);
    var after := cooks[i := out];
    GatherLose(cooks, i, out, OvenId);
    GatherLose(cooks, i, out, OvenCopy);
    GatherSame(WakeOven(after), after, OvenId);
    GatherSame(WakeOven(after), after, OvenCopy);
    hide WakeOven;
  }

  lemma OvenLockKeeps(s: State, e: Event)
    requires OvenAgrees(s) && Enabled(s, e) && e.OvenLock?
    ensures OvenAgrees(Apply(s, e))
  {
    hide Gather, Sum;
    var order := s.cooks[e.i].order;
    if |s.oven| == OVEN_PLACES {
      GatherKeep(s.cooks, e.i, OvenAsleep(order), OvenId);
      GatherKeep(s.cooks, e.i, OvenAsleep(order), OvenCopy);
    } else {
      var cooking := order.(state := Cooking);
      CookGoesIn(s.cooks, e.i, cooking);
      assert Ids(s.oven + [cooking]) == Ids(s.oven) + [order.id];
    }
  }

  lemma OvenRemoveKeeps(s: State, e: Event)
    requires Inv(s) && Enabled(s, e) && e.OvenRemove?
    ensures OvenAgrees(Apply(s, e))
  {
    hide Gather, Sum, NoLostWakeup;
    var k := FindOwn(s, e.i);
    OvenEntryLeaves(s, e.i, k);
  }

  lemma OvenEntryLeaves(s: State, i: nat, k: nat)
    requires OvenAgrees(s) && i < |s.cooks| && s.cooks[i].InOven?
    requires FirstWithId(s.oven, k, s.cooks[i].order.id)
    requires DistinctIds(s.admitted) ==> s.oven[k] == s.cooks[i].order
    ensures OvenAgrees(Apply(s, OvenRemove(i)))
  {
    hide Gather, Sum, Ids, DistinctIds;
    var order := s.cooks[i].order;
    RemoveFirstByIdAt(s.oven, k, order.id);
    hide RemoveFirstById;
    IdLeaves(s, i, k);
    if DistinctIds(s.admitted) {
      CopyLeaves(s, i, k);
    }
  }

  lemma IdLeaves(s: State, i: nat, k: nat)
    requires OvenAgrees(s) && i < |s.cooks| && s.cooks[i].InOven? && k < |s.oven|
    requires s.oven[k].id == s.cooks[i].order.id
    ensures multiset(Ids(s.oven[..k] + s.oven[k + 1..]))
         == Gather(WakeOven(s.cooks[i := TakenOut(s.cooks[i].order)]), OvenId)
  {
    hide Gather, Ids, WakeOven, DistinctIds;
    CookGoesOut(s.cooks, i);
    RemovedIds(s.oven, k);
    Cancel(Gather(s.cooks, OvenId), Gather(WakeOven(s.cooks[i := TakenOut(s.cooks[i].order)]), OvenId),
           s.cooks[i].order.id);
  }

  lemma CopyLeaves(s: State, i: nat, k: nat)
    requires OvenAgrees(s) && DistinctIds(s.admitted) && i < |s.cooks| && s.cooks[i].InOven? && k < |s.oven|
    requires s.oven[k] == s.cooks[i].order
    ensures multiset(s.oven[..k] + s.oven[k + 1..])
         == Gather(WakeOven(s.cooks[i := TakenOut(s.cooks[i].order)]), OvenCopy)
  {
    hide Gather, Ids, WakeOven, DistinctIds;
    CookGoesOut(s.cooks, i);
    RemovedMultiset(s.oven, k);
    Cancel(Gather(s.cooks, OvenCopy), Gather(WakeOven(s.cooks[i := TakenOut(s.cooks[i].order)]), OvenCopy),
           s.cooks[i].order);
  }

  /** Every other step leaves the oven and the cooks in it alone. */
  lemma OvenUntouched(s: State, e: Event)
    requires Enabled(s, e) && !e.OvenLock? && !e.OvenRemove?
    ensures Gather(Apply(s, e).cooks, OvenId) == Gather(s.cooks, OvenId)
    ensures Gather(Apply(s, e).cooks, OvenCopy) == Gather(s.cooks, OvenCopy)
  {
    hide Gather;
    var t := Apply(s, e);
    match e
    case ManagerAssign(w) =>
      if w.Some? {
        StaysOut(s.cooks, w.value, CookReady);
      }
    case CookLock(i) => StaysOut(s.cooks, i, t.cooks[i]);
    case CookWake(i) => StaysOut(s.cooks, i, t.cooks[i]);
    case OvenWake(i) => StaysOut(s.cooks, i, t.cooks[i]);
    case Forward(i, _) => StaysOut(s.cooks, i, t.cooks[i]);
    case _ =>
  }

  /** Ids once distinct were so before. */
  lemma OvenSame(s: State, e: Event)
    requires Enabled(s, e) && !e.OvenLock? && !e.OvenRemove?
    ensures Apply(s, e).oven == s.oven && (DistinctIds(Apply(s, e).admitted) ==> DistinctIds(s.admitted))
  {
    hide WakeOven, RemoveFirstById, CookSignal, CourierSignal;
    assert forall i :: 0 <= i < |s.admitted| ==> Apply(s, e).admitted[i] == s.admitted[i];
  }

  lemma StaysOut(cooks: seq<Cook>, i: nat, c: Cook)
    requires i < |cooks| && !cooks[i].InOven? && !c.InOven?
    ensures Gather(cooks[i := c], OvenId) == Gather(cooks, OvenId)
    ensures Gather(cooks[i := c], OvenCopy) == Gather(cooks, OvenCopy)
  {
    GatherKeep(cooks, i, c, OvenId);
    GatherKeep(cooks, i, c, OvenCopy);
  }

  lemma OvenKept(s: State, e: Event)
    requires Inv(s) && Enabled(s, e)
    ensures OvenAgrees(Apply(s, e))
  {
    hide Gather, Sum, StateMatchesPlace, Fifo, HandsAddUp, NoLostWakeup, RemoveFirstById, WakeOven;
    match e
    case OvenLock(_) => OvenLockKeeps(s, e);
    case OvenRemove(_) => OvenRemoveKeeps(s, e);
    case _ =>
      OvenUntouched(s, e);
      OvenSame(s, e);
      hide Apply, Enabled;
  }

  /* ---- Wakeups ---- */

  /** Cooks at their lock: one fewer when one goes in, one more when one is signalled or comes back. */
  lemma ReadyCooks(s: State, e: Event)
    requires Enabled(s, e) && s.running && e != Shutdown
    ensures Sum(Apply(s, e).cooks, CookIsReady) >= 0
    ensures e.CookLock? ==> Sum(Apply(s, e).cooks, CookIsReady) == Sum(s.cooks, CookIsReady) - 1
    ensures e.ManagerAssign? && e.signalled.Some? ==>
              Sum(Apply(s, e).cooks, CookIsReady) == Sum(s.cooks, CookIsReady) + 1
    ensures !e.CookLock? ==> Sum(Apply(s, e).cooks, CookIsReady) >= Sum(s.cooks, CookIsReady)
  {
    SumNonNegative(Apply(s, e).cooks, CookIsReady);
    hide Sum, WakeOven, RemoveFirstById, CourierSignal;
    var t := Apply(s, e);
    match e
    case ManagerAssign(w) =>
      if w.Some? {
        SumUpdate(s.cooks, w.value, CookReady, CookIsReady);
      }
    case OvenLock(_) => OvenStepReady(s, e);
    case OvenRemove(_) => OvenStepReady(s, e);
    case CookLock(i) => SumUpdate(s.cooks, i, t.cooks[i], CookIsReady);
    case CookWake(i) => SumUpdate(s.cooks, i, t.cooks[i], CookIsReady);
    case Forward(i, _) => SumUpdate(s.cooks, i, t.cooks[i], CookIsReady);
    case _ => SumSame(t.cooks, s.cooks, CookIsReady);
  }

  lemma OvenStepReady(s: State, e: Event)
    requires Enabled(s, e) && (e.OvenLock? || e.OvenRemove?)
    ensures Sum(Apply(s, e).cooks, CookIsReady) == Sum(s.cooks, CookIsReady)
  {
    hide RemoveFirstById;
    SumSame(Apply(s, e).cooks, s.cooks, CookIsReady);
  }

  lemma ReadyCouriers(s: State, e: Event)
    requires Enabled(s, e) && s.running && e != Shutdown
    ensures Sum(Apply(s, e).couriers, CourierIsReady) >= 0
    ensures e.CourierLock? ==> Sum(Apply(s, e).couriers, CourierIsReady) >= Sum(s.couriers, CourierIsReady) - 1
    ensures e.Forward? && e.signalled.Some? ==>
              Sum(Apply(s, e).couriers, CourierIsReady) == Sum(s.couriers, CourierIsReady) + 1
    ensures !e.CourierLock? ==> Sum(Apply(s, e).couriers, CourierIsReady) >= Sum(s.couriers, CourierIsReady)
  {
    SumNonNegative(Apply(s, e).couriers, CourierIsReady);
    hide Sum;
    var t := Apply(s, e);
    match e
    case Forward(_, w) =>
      if w.Some? {
        SumUpdate(s.couriers, w.value, CourierReady, CourierIsReady);
      }
    case CourierLock(i) => SumUpdate(s.couriers, i, t.couriers[i], CourierIsReady);
    case CourierWake(i) => SumUpdate(s.couriers, i, t.couriers[i], CourierIsReady);
    case Deliver(i, _) => SumUpdate(s.couriers, i, t.couriers[i], CourierIsReady);
    case _ =>
  }

  lemma WakeupsKept(s: State, e: Event)
    requires NoLostWakeup(s) && Enabled(s, e)
    ensures NoLostWakeup(Apply(s, e))
  {
    hide Sum;
    if s.running && e != Shutdown {
      ReadyCooks(s, e);
      ReadyCouriers(s, e);
    }
  }

  /* ---- All of it, over every run ---- */

  lemma StepKeeps(s: State, e: Event)
    requires Inv(s) && Enabled(s, e)
    ensures Inv(Apply(s, e))
  {
    StateKept(s, e);
    FifoKept(s, e);
    CookHandsKept(s, e);
    CourierHandsKept(s, e);
    OvenKept(s, e);
    WakeupsKept(s, e);
    hide Enabled, Apply, StateMatchesPlace, Fifo, OvenAgrees, NoLostWakeup;
  }

  lemma {:induction false} RunKeeps(cooks: nat, couriers: nat, events: seq<Event>)
    requires Run(Init(cooks, couriers), events).Some?
    ensures Inv(Run(Init(cooks, couriers), events).value)
  {
    hide Enabled, Apply, Inv;
    if events == [] {
      InitInv(cooks, couriers);
    } else {
      var before := events[..|events| - 1];
      RunKeeps(cooks, couriers, before);
      StepKeeps(Run(Init(cooks, couriers), before).value, events[|events| - 1]);
    }
  }
}
