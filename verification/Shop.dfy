/** The critical sections of Server.c on the shared arrays. Each does to the arrays what the step
    relation says, in bounds, so what is proved of the steps holds of the code. */
module Shop {
  import opened Folds
  import opened ShopQueues
  import opened Kitchen
  import opened KitchenSafety

  /** The order a cook is preparing. */
  function PreparedBy(s: State, i: nat): Option<Order> {
    if i < |s.cooks| && s.cooks[i].Prepared? then Some(s.cooks[i].order) else None
  }

  predicate IsInside(s: State, i: nat) {
    i < |s.cooks| && s.cooks[i].InOven?
  }

  function CarriedBy(s: State, i: nat): Option<Order> {
    if i < |s.couriers| && s.couriers[i].Carrying? then Some(s.couriers[i].order) else None
  }

  class SharedShop {
    const orders: OrderQueue         // order_queue
    const cookOrders: OrderQueue     // cook_queue
    const deliveries: OrderQueue     // delivery_queue
    const oven: Oven
    var running: bool

    ghost var state: State

    ghost predicate Separate()
      reads orders, cookOrders, deliveries, oven
    {
      && orders != cookOrders && orders != deliveries && cookOrders != deliveries
      && orders.items != cookOrders.items && orders.items != deliveries.items && cookOrders.items != deliveries.items
      && oven.orders != orders.items && oven.orders != cookOrders.items && oven.orders != deliveries.items
    }

    /** The arrays hold what the state says, and the state keeps the invariant of all runs. */
    ghost predicate Valid()
      reads this, orders, orders.items, cookOrders, cookOrders.items
      reads deliveries, deliveries.items, oven, oven.orders
    {
      && Separate() && Inv(state) && state.running == running
      && orders.Valid() && state.orderQueue == orders.Contents()
      && cookOrders.Valid() && state.cookQueue == cookOrders.Contents()
      && deliveries.Valid() && state.deliveryQueue == deliveries.Contents()
      && oven.Valid() && state.oven == oven.Contents()
    }

    constructor (cooks: nat, couriers: nat)
      ensures Valid() && state == Init(cooks, couriers)
    {
      hide Inv, Gather, Sum, Init, Apply, Enabled;
      orders := new OrderQueue();
      cookOrders := new OrderQueue();
      deliveries := new OrderQueue();
      oven := new Oven();
      running := true;
      state := Init(cooks, couriers);
      new;
      InitInv(cooks, couriers);
      NothingQueued(cooks, couriers);
    }

    static lemma NothingQueued(cooks: nat, couriers: nat)
      ensures var s := Init(cooks, couriers);
              s.running && s.orderQueue == s.cookQueue == s.deliveryQueue == s.oven == []
    {
    }

    static lemma ManagerLockDoes(s: State)
      requires Enabled(s, ManagerLock)
      ensures var t := Apply(s, ManagerLock);
              && t.running == s.running && t.cookQueue == s.cookQueue
              && t.deliveryQueue == s.deliveryQueue && t.oven == s.oven
              && if s.running && s.orderQueue != [] then
                   t.manager == Assigning(s.orderQueue[0]) && t.orderQueue == s.orderQueue[1..]
                 else !t.manager.Assigning? && t.orderQueue == s.orderQueue
    {
    }

    static lemma CookLockDoes(s: State, i: nat)
      requires Enabled(s, CookLock(i))
      ensures var t := Apply(s, CookLock(i));
              && t.running == s.running && t.orderQueue == s.orderQueue
              && t.deliveryQueue == s.deliveryQueue && t.oven == s.oven
              && if s.running && s.cookQueue != [] then
                   PreparedBy(t, i) == Some(s.cookQueue[0]) && t.cookQueue == s.cookQueue[1..]
                 else PreparedBy(t, i) == None && t.cookQueue == s.cookQueue
    {
    }

    static lemma CourierLockDoes(s: State, i: nat)
      requires Enabled(s, CourierLock(i))
      ensures var t := Apply(s, CourierLock(i));
              && t.running == s.running && t.orderQueue == s.orderQueue
              && t.cookQueue == s.cookQueue && t.oven == s.oven
              && if s.running && s.deliveryQueue != [] then
                   var order := s.deliveryQueue[0];
                   CarriedBy(t, i) == (if order.state == Ready then Some(order) else None)
                   && t.deliveryQueue == s.deliveryQueue[1..]
                 else CarriedBy(t, i) == None && t.deliveryQueue == s.deliveryQueue
    {
    }

    /** A session hands in an order (lines 420-423). */
    method AdmitOrder(order: Order)
      requires Valid() && order.state.Received? && orders.count < MAX_CLIENTS
      modifies this`state, orders, orders.items
      ensures Valid() && state == Apply(old(state), Admit(order))
    {
      hide Inv, Gather, Sum, OrderQueue.Contents, Oven.Contents;
      StepKeeps(state, Admit(order));
      orders.Append(order);
      state := Apply(state, Admit(order));
    }

    /** The manager's turn at order_queue (lines 160-174). */
    method ManagerLocks() returns (taken: Option<Order>)
      requires Valid() && state.manager.ManagerReady?
      modifies this`state, orders, orders.items
      ensures Valid() && state == Apply(old(state), ManagerLock)
      ensures taken == if state.manager.Assigning? then Some(state.manager.order) else None
    {
      hide Inv, Apply, OrderQueue.Contents, Oven.Contents;
      StepKeeps(state, ManagerLock);
      ManagerLockDoes(state);
      taken := None;
      if running && orders.count != 0 {
        var order := orders.TakeFirst();
        taken := Some(order);
      }
      state := Apply(state, ManagerLock);
    }

    /** The manager passes its order on (lines 176-179). */
    method ManagerAssigns(order: Order, ghost signalled: Option<nat>)
      requires Valid() && Enabled(state, ManagerAssign(signalled)) && state.manager.order == order
      requires cookOrders.count < MAX_CLIENTS
      modifies this`state, cookOrders, cookOrders.items
      ensures Valid() && state == Apply(old(state), ManagerAssign(signalled))
    {
      hide Inv, Gather, Sum, OrderQueue.Contents, Oven.Contents;
      StepKeeps(state, ManagerAssign(signalled));
      cookOrders.Append(order);
      state := Apply(state, ManagerAssign(signalled));
    }

    /** A cook's turn at cook_queue (lines 195-209). */
    method CookLocks(ghost i: nat) returns (taken: Option<Order>)
      requires Valid() && Enabled(state, CookLock(i))
      modifies this`state, cookOrders, cookOrders.items
      ensures Valid() && state == Apply(old(state), CookLock(i))
      ensures taken == PreparedBy(state, i)
    {
      hide Inv, Apply, OrderQueue.Contents, Oven.Contents;
      StepKeeps(state, CookLock(i));
      CookLockDoes(state, i);
      taken := None;
      if running && cookOrders.count != 0 {
        var order := cookOrders.TakeFirst();
        taken := Some(order);
      }
      state := Apply(state, CookLock(i));
    }

    /** A cook's turn at the oven (lines 221-229): in, or asleep when all six places are taken. */
    method CookLocksOven(ghost i: nat, order: Order) returns (inside: bool)
      requires Valid() && Enabled(state, OvenLock(i)) && state.cooks[i].order == order
      modifies this`state, oven, oven.orders
      ensures Valid() && state == Apply(old(state), OvenLock(i))
      ensures inside <==> IsInside(state, i)
    {
      hide Inv, Gather, Sum, OrderQueue.Contents, Oven.Contents;
      StepKeeps(state, OvenLock(i));
      inside := oven.count != OVEN_PLACES;
      if inside {
        oven.Insert(order.(state := Cooking));
      }
      state := Apply(state, OvenLock(i));
    }

    /** A cook takes its order out of the oven (lines 240-251). */
    method CookLeavesOven(ghost i: nat, order: Order)
      requires Valid() && Enabled(state, OvenRemove(i)) && state.cooks[i].order == order
      modifies this`state, oven, oven.orders
      ensures Valid() && state == Apply(old(state), OvenRemove(i))
      ensures oven.count == old(oven.count) - 1
    {
      hide Inv, Gather, Sum, OrderQueue.Contents, Oven.Contents;
      StepKeeps(state, OvenRemove(i));
      OneFewer(state, i);
      oven.Remove(order.id);
      state := Apply(state, OvenRemove(i));
    }

    static lemma OneFewer(s: State, i: nat)
      requires Inv(s) && Enabled(s, OvenRemove(i))
      ensures |Apply(s, OvenRemove(i)).oven| == |s.oven| - 1
    {
      var k := FindOwn(s, i);
      RemoveFirstByIdAt(s.oven, k, s.cooks[i].order.id);
    }

    /** A cook forwards its order (lines 253-257). */
    method CookForwards(ghost i: nat, order: Order, ghost signalled: Option<nat>)
      requires Valid() && Enabled(state, Forward(i, signalled)) && state.cooks[i].order == order
      requires deliveries.count < MAX_CLIENTS
      modifies this`state, deliveries, deliveries.items
      ensures Valid() && state == Apply(old(state), Forward(i, signalled))
    {
      hide Inv, Gather, Sum, OrderQueue.Contents, Oven.Contents;
      StepKeeps(state, Forward(i, signalled));
      deliveries.Append(order.(state := Ready));
      state := Apply(state, Forward(i, signalled));
    }

    /** A courier's turn at delivery_queue (lines 271-289). */
    method CourierLocks(ghost i: nat) returns (taken: Option<Order>)
      requires Valid() && Enabled(state, CourierLock(i))
      modifies this`state, deliveries, deliveries.items
      ensures Valid() && state == Apply(old(state), CourierLock(i))
      ensures taken == CarriedBy(state, i)
    {
      hide Inv, Apply, OrderQueue.Contents, Oven.Contents;
      StepKeeps(state, CourierLock(i));
      CourierLockDoes(state, i);
      taken := None;
      if running && deliveries.count != 0 {
        var order := deliveries.TakeFirst();
        if order.state == Ready {
          taken := Some(order);
        }
      }
      state := Apply(state, CourierLock(i));
    }
  }
}
