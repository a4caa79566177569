/** Bounded work and freedom from deadlock: a run of n admissions hands orders on at most 8n
    times, and while the shop runs some thread can always do the next hand-over. */
module KitchenProgress {
  import opened Folds
  import opened ShopQueues
  import opened Kitchen
  import opened KitchenSafety
  import opened KitchenTheorems

  /* ---- Every productive step is one hand-over ---- */

  lemma CookRankMoves(s: State, e: Event)
    requires StateMatchesPlace(s) && Enabled(s, e)
    ensures Sum(Apply(s, e).cooks, CookRank) - Sum(s.cooks, CookRank)
         == match e
            case CookLock(_) => if s.running && s.cookQueue != [] then 3 else 0
            case OvenLock(_) => if |s.oven| != OVEN_PLACES then 1 else 0
            case OvenRemove(_) => 1
            case Forward(_, _) => -5
            case _ => 0
  {
    hide Sum, StateMatchesPlace;
    var t := Apply(s, e);
    match e
    case ManagerAssign(w) =>
      if w.Some? {
        SumUpdate(s.cooks, w.value, CookReady, CookRank);
      }
    case CookLock(i) => SumUpdate(s.cooks, i, t.cooks[i], CookRank);
    case CookWake(i) => SumUpdate(s.cooks, i, t.cooks[i], CookRank);
    case OvenLock(i) => OvenStepRank(s.cooks, i, t.cooks);
    case OvenWake(i) => SumUpdate(s.cooks, i, t.cooks[i], CookRank);
    case OvenRemove(i) => OvenStepRank(s.cooks, i, t.cooks);
    case Forward(i, _) => SumUpdate(s.cooks, i, t.cooks[i], CookRank);
    case _ =>
  }

  lemma OvenStepRank(before: seq<Cook>, i: nat, after: seq<Cook>)
    requires i < |before| && |before| == |after|
    requires forall j :: 0 <= j < |before| && j != i ==> CookRank(after[j]) == CookRank(before[j])
    ensures Sum(after, CookRank) - Sum(before, CookRank) == CookRank(after[i]) - CookRank(before[i])
  {
    SumUpdate(before, i, after[i], CookRank);
    SumSame(before[i := after[i]], after, CookRank);
  }

  lemma CourierRankMoves(s: State, e: Event)
    requires StateMatchesPlace(s) && Enabled(s, e)
    ensures Sum(Apply(s, e).couriers, CourierRank) - Sum(s.couriers, CourierRank)
         == match e
            case CourierLock(_) =>
              if s.running && s.deliveryQueue != [] && s.deliveryQueue[0].state == Ready then 7 else 0
            case Deliver(_, _) => -7
            case _ => 0
  {
    hide Sum, StateMatchesPlace;
    var t := Apply(s, e);
    match e
    case Forward(_, w) =>
      if w.Some? {
        SumUpdate(s.couriers, w.value, CourierReady, CourierRank);
      }
    case CourierLock(i) => SumUpdate(s.couriers, i, t.couriers[i], CourierRank);
    case CourierWake(i) => SumUpdate(s.couriers, i, t.couriers[i], CourierRank);
    case Deliver(i, _) => SumUpdate(s.couriers, i, t.couriers[i], CourierRank);
    case _ =>
  }

  /** A productive step raises the rank of one order by one; no other step moves an order. */
  lemma ProductiveStepsProgress(s: State, e: Event)
    requires StateMatchesPlace(s) && Enabled(s, e)
    ensures Progress(Apply(s, e)) == Progress(s) + if Productive(s, e) then 1 else 0
  {
    CookRankMoves(s, e);
    CourierRankMoves(s, e);
    hide Sum, StateMatchesPlace;
  }

  lemma {:induction false} HandoversAreProgress(cooks: nat, couriers: nat, events: seq<Event>)
    requires Run(Init(cooks, couriers), events).Some?
    ensures Handovers(Init(cooks, couriers), events) == Progress(Run(Init(cooks, couriers), events).value)
  {
    if events == [] {
      var s := Init(cooks, couriers);
      SumScaled(s.cooks, CookRank, CookIsAwake, 0);
      SumNonNegative(s.cooks, CookRank);
      SumScaled(s.couriers, CourierRank, CourierBusy, 0);
      SumNonNegative(s.couriers, CourierRank);
    } else {
      hide Enabled, Apply, Progress, Productive;
      var before := events[..|events| - 1];
      HandoversAreProgress(cooks, couriers, before);
      RunKeeps(cooks, couriers, before);
      ProductiveStepsProgress(Run(Init(cooks, couriers), before).value, events[|events| - 1]);
    }
  }

  lemma ProgressBound(s: State)
    requires Fifo(s) && HandsAddUp(s) && StateMatchesPlace(s)
    ensures Progress(s) <= 7 * |s.admitted| + |s.delivered| <= 8 * |s.admitted|
    ensures |s.delivered| == |s.admitted| ==> Progress(s) == 8 * |s.admitted|
  {
    PlacesCounted(s);
    SumScaled(s.cooks, CookRank, CookBusy, 5);
    SumScaled(s.couriers, CourierRank, CourierBusy, 7);
    SumNonNegative(s.cooks, CookRank);
    SumNonNegative(s.couriers, CourierRank);
    hide Sum, HandsAddUp;
  }

  /** n admitted orders allow at most 8n productive steps, and exactly 8n when all are delivered. */
  lemma BoundedWork(cooks: nat, couriers: nat, events: seq<Event>, s: State)
    requires Reached(cooks, couriers, events, s)
    ensures Handovers(Init(cooks, couriers), events) <= 8 * |s.admitted|
    ensures Handovers(Init(cooks, couriers), events) == 8 * |s.admitted| <==> |s.delivered| == |s.admitted|
  {
    HandoversAreProgress(cooks, couriers, events);
    RunKeeps(cooks, couriers, events);
    ProgressBound(s);
  }

  /* ---- Wakeups ---- */

  /** While the shop runs, at least min(|cook_queue|, C) cooks are awake; when one sleeps, as many
      as the queue is long are at their lock. An order waiting for the manager finds it awake. */
  lemma EnoughAwake(cooks: nat, couriers: nat, events: seq<Event>, s: State)
    requires Reached(cooks, couriers, events, s) && s.running
    ensures s.orderQueue != [] ==> !s.manager.ManagerAsleep?
    ensures Sum(s.cooks, CookIsAwake) >= if |s.cookQueue| < cooks then |s.cookQueue| else cooks
    ensures forall i :: 0 <= i < |s.cooks| && s.cooks[i].CookAsleep? ==> Sum(s.cooks, CookIsReady) >= |s.cookQueue|
    ensures forall i :: 0 <= i < |s.couriers| && s.couriers[i].CourierAsleep? ==>
              Sum(s.couriers, CourierIsReady) >= |s.deliveryQueue|
  {
    RunKeeps(cooks, couriers, events);
    PoolsKeepTheirSize(cooks, couriers, events);
    SumScaled(s.cooks, CookIsReady, CookIsAwake, 1);
    if i :| 0 <= i < |s.cooks| && s.cooks[i].CookAsleep? {
    } else {
      AllAwake(s.cooks);
    }
  }

  lemma {:induction false} AllAwake(cooks: seq<Cook>)
    requires forall i :: 0 <= i < |cooks| ==> !cooks[i].CookAsleep?
    ensures Sum(cooks, CookIsAwake) == |cooks|
  {
    if cooks != [] {
      assert forall i :: 0 <= i < |cooks[1..]| ==> cooks[1..][i] == cooks[i + 1];
      AllAwake(cooks[1..]);
    }
  }

  /* ---- Deadlock freedom ---- */

  predicate OfKitchen(e: Event) {
    e.ManagerLock? || e.ManagerAssign? || e.CookLock? || e.OvenLock? || e.OvenRemove? || e.Forward?
  }

  lemma SomeCookSignal(cooks: seq<Cook>) returns (w: Option<nat>)
    ensures CookSignal(cooks, w)
  {
    if i: nat :| i < |cooks| && cooks[i].CookAsleep? {
      w := Some(i);
    } else {
      w := None;
    }
  }

  lemma SomeCourierSignal(couriers: seq<Courier>) returns (w: Option<nat>)
    ensures CourierSignal(couriers, w)
  {
    if i: nat :| i < |couriers| && couriers[i].CourierAsleep? {
      w := Some(i);
    } else {
      w := None;
    }
  }

  /** A cook with an order can hand it on, or the oven is full and a cook in it can. */
  lemma BusyCookMoves(s: State, i: nat) returns (e: Event)
    requires OvenAgrees(s) && i < |s.cooks| && HasOrder(s.cooks[i])
    ensures OfKitchen(e) && Productive(s, e)
  {
    if s.cooks[i].TakenOut? {
      var w := SomeCourierSignal(s.couriers);
      e := Forward(i, w);
    } else if s.cooks[i].InOven? {
      e := OvenRemove(i);
    } else if |s.oven| < OVEN_PLACES {
      e := OvenLock(i);
    } else {
      OvenCounted(s);
      var k := SumWitness(s.cooks, CookInOven);
      e := OvenRemove(k);
    }
  }

  lemma WaitingOrderMoves(s: State) returns (e: Event)
    requires Inv(s) && s.running && s.cooks != [] && s.cookQueue != []
    ensures OfKitchen(e) && Productive(s, e)
  {
    if s.cooks[0].CookAsleep? {
      var k := SumWitness(s.cooks, CookIsReady);
      e := CookLock(k);
    } else if s.cooks[0].CookReady? {
      e := CookLock(0);
    } else {
      e := BusyCookMoves(s, 0);
    }
  }

  /** While the shop runs with a cook, an order admitted but not yet forwarded can be moved on,
      by the manager or a cook. */
  lemma KitchenNeverStuck(cooks: nat, couriers: nat, events: seq<Event>, s: State) returns (e: Event)
    requires Reached(cooks, couriers, events, s) && s.running && cooks > 0
    requires |s.forwarded| < |s.admitted|
    ensures OfKitchen(e) && Productive(s, e)
  {
    RunKeeps(cooks, couriers, events);
    PoolsKeepTheirSize(cooks, couriers, events);
    PlacesCounted(s);
    hide Run, Sum, Gather;
    if s.manager.Assigning? {
      var w := SomeCookSignal(s.cooks);
      e := ManagerAssign(w);
    } else if s.cookQueue != [] {
      e := WaitingOrderMoves(s);
    } else if s.orderQueue != [] {
      e := ManagerLock;
    } else {
      var k := SumWitness(s.cooks, CookBusy);
      e := BusyCookMoves(s, k);
    }
  }

  /** When no step can hand an order on, every order was delivered, or every courier has left and
      the rest waits in the delivery queue. */
  lemma QuiescentMeansDone(cooks: nat, couriers: nat, events: seq<Event>, s: State)
    requires Reached(cooks, couriers, events, s) && s.running && cooks > 0
    requires forall e :: !Productive(s, e)
    ensures s.admitted == s.picked && |s.forwarded| == |s.admitted|
    ensures multiset(s.admitted) == multiset(AllAsReceived(s.deliveryQueue)) + multiset(AllAsReceived(s.delivered))
    ensures s.deliveryQueue == [] || forall i :: 0 <= i < |s.couriers| ==> s.couriers[i].CourierGone?
  {
    RunKeeps(cooks, couriers, events);
    PlacesCounted(s);
    if |s.forwarded| < |s.admitted| {
      var _ := KitchenNeverStuck(cooks, couriers, events, s);
    }
    NobodyHolds(s);
    ExactlyOnePlace(cooks, couriers, events, s);
    hide Run, Sum, Gather, AllAsReceived, OvenAgrees;
    forall i | 0 <= i < |s.couriers| && s.deliveryQueue != []
      ensures s.couriers[i].CourierGone?
    {
      CourierLeft(s, i);
    }
  }

  lemma NobodyHolds(s: State)
    requires Fifo(s) && HandsAddUp(s) && OvenAgrees(s) && forall e :: !Productive(s, e)
    ensures Gather(s.cooks, CookHand) == multiset{} && Gather(s.couriers, CourierHand) == multiset{}
  {
    forall i | 0 <= i < |s.cooks|
      ensures CookHand(s.cooks[i]) == multiset{}
    {
      if HasOrder(s.cooks[i]) {
        var e := BusyCookMoves(s, i);
      }
    }
    forall i: nat | i < |s.couriers|
      ensures CourierHand(s.couriers[i]) == multiset{}
    {
      assert !Productive(s, Deliver(i, false));
    }
    GatherEmpty(s.cooks, CookHand);
    GatherEmpty(s.couriers, CourierHand);
  }

  lemma CourierLeft(s: State, i: nat)
    requires NoLostWakeup(s) && s.running && s.deliveryQueue != [] && i < |s.couriers|
    requires forall e :: !Productive(s, e)
    ensures s.couriers[i].CourierGone?
  {
    assert !Productive(s, CourierLock(i)) && !Productive(s, Deliver(i, false));
    if s.couriers[i].CourierAsleep? {
      var k := SumWitness(s.couriers, CourierIsReady);
      assert Productive(s, CourierLock(k));
    }
  }
}
