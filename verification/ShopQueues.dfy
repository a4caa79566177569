/** The shop's shared buffers (Server.c): three arrays used as queues by shifting everything
    down after a removal, and the six-place oven searched by order id. */
module ShopQueues {

  const MAX_CLIENTS := 1024
  const OVEN_PLACES := 6

  datatype OrderState = Received | Preparing | Cooking | Ready | Delivered

  datatype Order = Order(id: int, client: int, x: int, y: int, preparation: int, cooking: int,
                         cancelled: bool, state: OrderState)

  /** The entries left when the first one with this id is taken out; all of them when none has it. */
  function RemoveFirstById(orders: seq<Order>, id: int): seq<Order> {
    if orders == [] then []
    else if orders[0].id == id then orders[1..]
    else [orders[0]] + RemoveFirstById(orders[1..], id)
  }

  function Ids(orders: seq<Order>): seq<int> {
    seq(|orders|, i requires 0 <= i < |orders| => orders[i].id)
  }

  /** Where the search stops: every earlier entry carries another id. */
  ghost predicate FirstWithId(orders: seq<Order>, i: nat, id: int) {
    i < |orders| && orders[i].id == id && forall k :: 0 <= k < i ==> orders[k].id != id
  }

  /** Taking out by id removes one entry, the first match, and keeps the sequence of the rest. */
  lemma {:induction false} RemoveFirstByIdAt(orders: seq<Order>, i: nat, id: int)
    requires FirstWithId(orders, i, id)
    ensures RemoveFirstById(orders, id) == orders[..i] + orders[i + 1..]
  {
    if i > 0 {
      var tail := orders[1..];
      assert forall k :: 0 <= k < i - 1 ==> tail[k] == orders[k + 1];
      RemoveFirstByIdAt(tail, i - 1, id);
      assert [orders[0]] + tail[..i - 1] == orders[..i];
      assert tail[i..] == orders[i + 1..];
      assert [orders[0]] + (tail[..i - 1] + tail[i..]) == ([orders[0]] + tail[..i - 1]) + tail[i..];
    }
  }

  lemma RemovedMultiset(orders: seq<Order>, i: nat)
    requires i < |orders|
    ensures multiset(orders[..i] + orders[i + 1..]) == multiset(orders) - multiset{orders[i]}
  {
    assert orders == orders[..i] + [orders[i]] + orders[i + 1..];
  }

  lemma {:induction false} RemoveFirstByIdAbsent(orders: seq<Order>, id: int)
    requires forall k :: 0 <= k < |orders| ==> orders[k].id != id
    ensures RemoveFirstById(orders, id) == orders
  {
    if orders != [] {
      assert forall k :: 0 <= k < |orders[1..]| ==> orders[1..][k] == orders[k + 1];
      RemoveFirstByIdAbsent(orders[1..], id);
    }
  }

  lemma {:induction false} FindById(orders: seq<Order>, id: int) returns (i: nat)
    requires id in Ids(orders)
    ensures FirstWithId(orders, i, id)
  {
    if orders[0].id == id {
      i := 0;
    } else {
      var k :| 0 <= k < |orders| && orders[k].id == id;
      assert Ids(orders[1..])[k - 1] == id;
      var j := FindById(orders[1..], id);
      i := j + 1;
    }
  }

  /** A queue kept in a fixed array: `order_queue`, `cook_queue` and `delivery_queue`. */
  class OrderQueue {
    const items: array<Order>
    var count: nat

    ghost predicate Valid()
      reads this
    {
      items.Length == MAX_CLIENTS && count <= MAX_CLIENTS
    }

    ghost function Contents(): (contents: seq<Order>)
      requires Valid()
      reads this, items
      ensures |contents| == count
    {
      items[..count]
    }

    constructor ()
      ensures Valid() && fresh(items) && Contents() == []
    {
      items := new Order[MAX_CLIENTS](_ => Order(0, 0, 0, 0, 0, 0, false, Received));
      count := 0;
    }

    method Append(order: Order)
      requires Valid() && count < MAX_CLIENTS
      modifies this, items
      ensures Valid() && Contents() == old(Contents()) + [order]
    {
      items[count] := order;
      count := count + 1;
    }

    method TakeFirst() returns (order: Order)
      requires Valid() && count > 0
      modifies this, items
      ensures Valid()
      ensures order == old(Contents())[0] && Contents() == old(Contents())[1..]
    {
      order := items[0];
      var i := 0;
      while i < count - 1
        invariant 0 <= i <= count - 1 && count == old(count)
        invariant forall k :: 0 <= k < i ==> items[k] == old(items[k + 1])
        invariant forall k :: i <= k < count ==> items[k] == old(items[k])
      {
        items[i] := items[i + 1];
        i := i + 1;
      }
      count := count - 1;
    }
  }

  /** The oven: `orders[6]` and `count`. */
  class Oven {
    const orders: array<Order>
    var count: nat

    ghost predicate Valid()
      reads this
    {
      orders.Length == OVEN_PLACES && count <= OVEN_PLACES
    }

    ghost function Contents(): (contents: seq<Order>)
      requires Valid()
      reads this, orders
      ensures |contents| == count
    {
      orders[..count]
    }

    constructor ()
      ensures Valid() && fresh(orders) && Contents() == []
    {
      orders := new Order[OVEN_PLACES](_ => Order(0, 0, 0, 0, 0, 0, false, Received));
      count := 0;
    }

    method Insert(order: Order)
      requires Valid() && count < OVEN_PLACES
      modifies this, orders
      ensures Valid() && Contents() == old(Contents()) + [order]
    {
      orders[count] := order;
      count := count + 1;
    }

    /** The search-and-shift loop, also when no entry has the id. */
    method Remove(id: int)
      requires Valid()
      modifies this, orders
      ensures Valid() && Contents() == RemoveFirstById(old(Contents()), id)
    {
      var i := 0;
      while i < count
        invariant 0 <= i <= count && count == old(count)
        invariant orders[..] == old(orders[..])
        invariant forall k :: 0 <= k < i ==> orders[k].id != id
      {
        if orders[i].id == id {
          RemoveFirstByIdAt(Contents(), i, id);
          ghost var before := Contents();
          ShiftDown(i);
          count := count - 1;
          assert Contents() == before[..i] + before[i + 1..];
          return;
        }
        i := i + 1;
      }
      RemoveFirstByIdAbsent(Contents(), id);
    }

    method ShiftDown(i: nat)
      requires Valid() && i < count
      modifies orders
      ensures forall k :: 0 <= k < i ==> orders[k] == old(orders[k])
      ensures forall k :: i <= k < count - 1 ==> orders[k] == old(orders[k + 1])
    {
      var j := i;
      while j < count - 1
        invariant i <= j <= count - 1
        invariant forall k :: 0 <= k < i ==> orders[k] == old(orders[k])
        invariant forall k :: i <= k < j ==> orders[k] == old(orders[k + 1])
        invariant forall k :: j <= k < count ==> orders[k] == old(orders[k])
      {
        orders[j] := orders[j + 1];
        j := j + 1;
      }
    }
  }
}
