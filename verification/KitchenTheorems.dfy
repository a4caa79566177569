/** What the kitchen promises over every run: conservation, order, wakeups, progress. */
module KitchenTheorems {
  import opened Folds
  import opened ShopQueues
  import opened Kitchen
  import opened KitchenSafety

  /** The states some run of a shop with these pool sizes reaches. */
  ghost predicate Reached(cooks: nat, couriers: nat, events: seq<Event>, s: State) {
    Run(Init(cooks, couriers), events) == Some(s)
  }

  /* ---- Conservation ---- */

  /** Every admitted order is in exactly one place. */
  lemma ExactlyOnePlace(cooks: nat, couriers: nat, events: seq<Event>, s: State)
    requires Reached(cooks, couriers, events, s)
    ensures multiset(s.admitted)
         == multiset(s.orderQueue) + multiset(ManagerHand(s.manager)) + multiset(s.cookQueue)
          + Gather(s.cooks, CookHand) + multiset(AllAsReceived(s.deliveryQueue))
          + Gather(s.couriers, CourierHand) + multiset(AllAsReceived(s.delivered))
  {
    RunKeeps(cooks, couriers, events);
    hide Gather, Sum, Run;
    assert AllAsReceived(s.forwarded) == AllAsReceived(s.collected) + AllAsReceived(s.deliveryQueue);
    hide OvenAgrees, NoLostWakeup, StateMatchesPlace, AllAsReceived, ManagerHand;
    PlacesAddUp(s.admitted, s.picked, s.cookQueue, ManagerHand(s.manager), s.orderQueue,
                Gather(s.cooks, CookHand), AllAsReceived(s.forwarded), AllAsReceived(s.collected),
                AllAsReceived(s.deliveryQueue), Gather(s.couriers, CourierHand), AllAsReceived(s.delivered));
  }

  lemma PlacesAddUp(admitted: seq<Order>, picked: seq<Order>, cookQueue: seq<Order>, hand: seq<Order>,
                    orderQueue: seq<Order>, cooks: multiset<Order>, forwarded: seq<Order>, collected: seq<Order>,
                    deliveryQueue: seq<Order>, couriers: multiset<Order>, delivered: seq<Order>)
    requires admitted == picked + cookQueue + hand + orderQueue && multiset(picked) == cooks + multiset(forwarded)
    requires forwarded == collected + deliveryQueue && multiset(collected) == couriers + multiset(delivered)
    ensures multiset(admitted) == multiset(orderQueue) + multiset(hand) + multiset(cookQueue) + cooks
                                + multiset(deliveryQueue) + couriers + multiset(delivered)
  {
  }

  /** The same in numbers. */
  lemma PlacesCounted(s: State)
    requires Fifo(s) && HandsAddUp(s)
    ensures |s.picked| == Sum(s.cooks, CookBusy) + |s.forwarded|
    ensures |s.collected| == Sum(s.couriers, CourierBusy) + |s.delivered|
    ensures Sum(s.cooks, CookBusy) >= 0 && Sum(s.couriers, CourierBusy) >= 0
    ensures |s.admitted| == |s.orderQueue| + |ManagerHand(s.manager)| + |s.cookQueue| + Sum(s.cooks, CookBusy)
                          + |s.deliveryQueue| + Sum(s.couriers, CourierBusy) + |s.delivered|
  {
    GatherSize(s.cooks, CookHand, CookBusy);
    GatherSize(s.couriers, CourierHand, CourierBusy);
    SumNonNegative(s.cooks, CookBusy);
    SumNonNegative(s.couriers, CourierBusy);
    hide Gather, Sum;
    assert |multiset(s.picked)| == |s.picked|;
    assert |multiset(AllAsReceived(s.forwarded))| == |s.forwarded|;
    assert |multiset(AllAsReceived(s.collected))| == |s.collected|;
    assert |multiset(AllAsReceived(s.delivered))| == |s.delivered|;
  }

  /** With at most 1024 orders between admission and delivery, no array write is out of bounds. */
  lemma QueuesFit(cooks: nat, couriers: nat, events: seq<Event>, s: State)
    requires Reached(cooks, couriers, events, s)
    requires |s.admitted| - |s.delivered| <= MAX_CLIENTS
    ensures |s.orderQueue| <= MAX_CLIENTS && |s.cookQueue| <= MAX_CLIENTS && |s.deliveryQueue| <= MAX_CLIENTS
    ensures |s.oven| <= 6
  {
    RunKeeps(cooks, couriers, events);
    PlacesCounted(s);
  }

  /** When every thread has left, no hand and no oven place holds an order. */
  lemma NothingInHandAtExit(cooks: nat, couriers: nat, events: seq<Event>, s: State)
    requires Reached(cooks, couriers, events, s)
    requires s.manager.ManagerGone?
    requires forall i :: 0 <= i < |s.cooks| ==> s.cooks[i].CookGone?
    requires forall i :: 0 <= i < |s.couriers| ==> s.couriers[i].CourierGone?
    ensures s.oven == []
    ensures multiset(s.admitted) == multiset(s.orderQueue) + multiset(s.cookQueue)
                                  + multiset(AllAsReceived(s.deliveryQueue)) + multiset(AllAsReceived(s.delivered))
  {
    hide Gather, Sum, Run, AllAsReceived;
    RunKeeps(cooks, couriers, events);
    ExactlyOnePlace(cooks, couriers, events, s);
    GatherEmpty(s.cooks, CookHand);
    GatherEmpty(s.couriers, CourierHand);
    EmptyOven(s);
    assert multiset(ManagerHand(s.manager)) == multiset{};
    OnlyQueuesLeft(multiset(s.orderQueue), multiset(ManagerHand(s.manager)), multiset(s.cookQueue),
                   Gather(s.cooks, CookHand), multiset(AllAsReceived(s.deliveryQueue)),
                   Gather(s.couriers, CourierHand), multiset(AllAsReceived(s.delivered)));
    hide Inv, ManagerHand;
  }

  lemma OnlyQueuesLeft<T>(a: multiset<T>, b: multiset<T>, c: multiset<T>, d: multiset<T>, e: multiset<T>,
                          f: multiset<T>, g: multiset<T>)
    requires b == multiset{} && d == multiset{} && f == multiset{}
    ensures a + b + c + d + e + f + g == a + c + e + g
  {
  }

  lemma EmptyOven(s: State)
    requires OvenAgrees(s) && forall i :: 0 <= i < |s.cooks| ==> !s.cooks[i].InOven?
    ensures s.oven == []
  {
    GatherEmpty(s.cooks, OvenId);
    assert |multiset(Ids(s.oven))| == |s.oven|;
  }

  /* ---- Order ---- */

  /** Cooks take orders in the order of admission, couriers in the order of forwarding. */
  lemma QueuesAreFifo(cooks: nat, couriers: nat, events: seq<Event>, s: State)
    requires Reached(cooks, couriers, events, s)
    ensures s.admitted == s.picked + s.cookQueue + ManagerHand(s.manager) + s.orderQueue
    ensures s.forwarded == s.collected + s.deliveryQueue
  {
    RunKeeps(cooks, couriers, events);
  }

  /** When an order is forwarded, fewer than C of those admitted before it are still to be forwarded. */
  lemma BoundedReordering(cooks: nat, couriers: nat, events: seq<Event>, s: State, i: nat, w: Option<nat>, k: nat)
    requires Reached(cooks, couriers, events, s) && Enabled(s, Forward(i, w))
    requires k < |s.admitted| && s.admitted[k] == AsReceived(s.cooks[i].order)
    requires forall j :: 0 <= j < k ==> s.admitted[j] != s.admitted[k]
    ensures var t := Apply(s, Forward(i, w));
            |multiset(s.admitted[..k]) - multiset(AllAsReceived(t.forwarded))| < cooks
  {
    hide Gather, Sum, AllAsReceived;
    RunKeeps(cooks, couriers, events);
    PoolsKeepTheirSize(cooks, couriers, events);
    hide Run;
    var t := Apply(s, Forward(i, w));
    StepKeeps(s, Forward(i, w));
    PickedByNow(s, i, k);
    IdleCook(t.cooks, i);
    GatherSize(t.cooks, CookHand, CookBusy);
    hide OvenAgrees, NoLostWakeup, StateMatchesPlace;
    MissingAreInHand(s.picked, s.admitted[..k], Gather(t.cooks, CookHand), multiset(AllAsReceived(t.forwarded)));
  }

  ghost predicate FirstAt(orders: seq<Order>, k: nat, order: Order) {
    k < |orders| && orders[k] == order && forall j :: 0 <= j < k ==> orders[j] != order
  }

  /** Fewer than C orders admitted before a forwarded one were forwarded after it, or not yet. */
  ghost predicate ForwardedInTurn(s: State, cooks: nat) {
    forall p: nat, k: nat :: p < |s.forwarded| && FirstAt(s.admitted, k, AsReceived(s.forwarded[p])) ==>
      |multiset(s.admitted[..k]) - multiset(AllAsReceived(s.forwarded[..p + 1]))| < cooks
  }

  lemma ForwardedWasAdmitted(s: State, p: nat)
    requires Fifo(s) && HandsAddUp(s) && p < |s.forwarded|
    ensures AsReceived(s.forwarded[p]) in s.admitted
  {
    hide Gather;
    assert AllAsReceived(s.forwarded)[p] == AsReceived(s.forwarded[p]);
    assert AsReceived(s.forwarded[p]) in multiset(s.picked);
  }

  /** How a step extends the histories of admission and forwarding. */
  lemma HistoriesGrow(s: State, e: Event)
    requires Enabled(s, e)
    ensures Apply(s, e).admitted == if e.Admit? then s.admitted + [e.order] else s.admitted
    ensures Apply(s, e).forwarded ==
              if e.Forward? then s.forwarded + [s.cooks[e.i].order.(state := Ready)] else s.forwarded
  {
    hide WakeOven, RemoveFirstById;
  }

  lemma InTurnKept(cooks: nat, couriers: nat, events: seq<Event>, s: State, e: Event)
    requires Reached(cooks, couriers, events, s) && Enabled(s, e) && ForwardedInTurn(s, cooks)
    ensures ForwardedInTurn(Apply(s, e), cooks)
  {
    var t := Apply(s, e);
    RunKeeps(cooks, couriers, events);
    HistoriesGrow(s, e);
    hide Run, Enabled, Apply, AllAsReceived, OvenAgrees, NoLostWakeup, StateMatchesPlace, Fifo, HandsAddUp;
    forall p: nat, k: nat | p < |t.forwarded| && FirstAt(t.admitted, k, AsReceived(t.forwarded[p]))
      ensures |multiset(t.admitted[..k]) - multiset(AllAsReceived(t.forwarded[..p + 1]))| < cooks
    {
      if p < |s.forwarded| {
        ForwardedWasAdmitted(s, p);
        EarlierInTurn(s, t, cooks, p, k);
      } else {
        assert t.forwarded[..p + 1] == t.forwarded;
        hide ForwardedInTurn;
        BoundedReordering(cooks, couriers, events, s, e.i, e.signalled, k);
      }
    }
  }

  lemma EarlierInTurn(s: State, t: State, cooks: nat, p: nat, k: nat)
    requires ForwardedInTurn(s, cooks) && s.forwarded <= t.forwarded && s.admitted <= t.admitted
    requires p < |s.forwarded| && AsReceived(s.forwarded[p]) in s.admitted
    requires FirstAt(t.admitted, k, AsReceived(s.forwarded[p]))
    ensures |multiset(t.admitted[..k]) - multiset(AllAsReceived(t.forwarded[..p + 1]))| < cooks
  {
    hide AllAsReceived;
    assert t.forwarded[..p + 1] == s.forwarded[..p + 1];
    SameFirst(s.admitted, t.admitted, k, AsReceived(s.forwarded[p]));
  }

  lemma SameFirst(before: seq<Order>, after: seq<Order>, k: nat, order: Order)
    requires before <= after && order in before && FirstAt(after, k, order)
    ensures FirstAt(before, k, order) && before[..k] == after[..k]
  {
    var j :| 0 <= j < |before| && before[j] == order;
    assert after[j] == order;
  }

  lemma {:induction false} InTurnOverRuns(cooks: nat, couriers: nat, events: seq<Event>, s: State)
    requires Reached(cooks, couriers, events, s)
    ensures ForwardedInTurn(s, cooks)
  {
    if events != [] {
      var before := events[..|events| - 1];
      var u := Run(Init(cooks, couriers), before).value;
      InTurnOverRuns(cooks, couriers, before, u);
      InTurnKept(cooks, couriers, before, u, events[|events| - 1]);
      hide ForwardedInTurn, Enabled, Apply;
    }
  }

  /** From admission to delivery: with C cooks and D couriers, when an order is delivered at most
      C + D - 2 of those admitted before it are not. */
  lemma DeliveredInTurn(cooks: nat, couriers: nat, events: seq<Event>, s: State, i: nat, closing: bool, k: nat)
    requires Reached(cooks, couriers, events, s) && Enabled(s, Deliver(i, closing))
    requires FirstAt(s.admitted, k, AsReceived(s.couriers[i].order))
    ensures |multiset(s.admitted[..k]) - multiset(AllAsReceived(Apply(s, Deliver(i, closing)).delivered))|
         <= cooks + couriers - 2
  {
    hide Gather, Sum, AllAsReceived;
    var t := Apply(s, Deliver(i, closing));
    RunKeeps(cooks, couriers, events);
    PoolsKeepTheirSize(cooks, couriers, events);
    InTurnOverRuns(cooks, couriers, events, s);
    CourierHandsKept(s, Deliver(i, closing));
    hide Run, OvenAgrees, NoLostWakeup, StateMatchesPlace;
    var p := CollectedAt(s, i);
    OtherCouriers(t.couriers, i);
    GatherSize(t.couriers, CourierHand, CourierBusy);
    CollectedPrefix(s, p);
    hide Apply, Enabled, Fifo, HandsAddUp;
    TwoStages(multiset(s.admitted[..k]), multiset(AllAsReceived(s.forwarded[..p + 1])),
              multiset(AllAsReceived(s.collected)), Gather(t.couriers, CourierHand),
              multiset(AllAsReceived(t.delivered)));
  }

  lemma CollectedAt(s: State, i: nat) returns (p: nat)
    requires Fifo(s) && HandsAddUp(s) && i < |s.couriers| && s.couriers[i].Carrying?
    ensures p < |s.collected| <= |s.forwarded| && AsReceived(s.forwarded[p]) == AsReceived(s.couriers[i].order)
  {
    hide Gather;
    GatherMember(s.couriers, i, CourierHand);
    var order := AsReceived(s.couriers[i].order);
    assert order in CourierHand(s.couriers[i]);
    assert order in multiset(AllAsReceived(s.collected));
    p :| 0 <= p < |AllAsReceived(s.collected)| && AllAsReceived(s.collected)[p] == order;
    assert s.forwarded[p] == s.collected[p];
  }

  lemma OtherCouriers(couriers: seq<Courier>, i: nat)
    requires i < |couriers| && !couriers[i].Carrying?
    ensures Sum(couriers, CourierBusy) < |couriers|
  {
    var rest := couriers[..i] + couriers[i + 1..];
    SumWithout(couriers, i, CourierBusy);
    SumAtMost(rest, CourierBusy, 1);
  }

  lemma CollectedPrefix(s: State, p: nat)
    requires Fifo(s) && p < |s.collected|
    ensures |s.collected| <= |s.forwarded|
    ensures multiset(AllAsReceived(s.forwarded[..p + 1])) <= multiset(AllAsReceived(s.collected))
  {
    var all, first := AllAsReceived(s.collected), AllAsReceived(s.forwarded[..p + 1]);
    assert s.forwarded[..p + 1] == s.collected[..p + 1];
    assert all == first + all[p + 1..];
  }

  lemma TwoStages(earlier: multiset<Order>, forwarded: multiset<Order>, collected: multiset<Order>,
                  hands: multiset<Order>, delivered: multiset<Order>)
    requires forwarded <= collected == hands + delivered
    ensures |earlier - delivered| <= |earlier - forwarded| + |hands|
  {
    assert earlier - delivered <= (earlier - forwarded) + hands;
    SubmultisetSize(earlier - delivered, (earlier - forwarded) + hands);
  }

  /** The first admission of an order a cook holds is among the picked ones. */
  lemma PickedByNow(s: State, i: nat, k: nat)
    requires Fifo(s) && HandsAddUp(s) && i < |s.cooks| && HasOrder(s.cooks[i])
    requires k < |s.admitted| && s.admitted[k] == AsReceived(s.cooks[i].order)
    requires forall j :: 0 <= j < k ==> s.admitted[j] != s.admitted[k]
    ensures k < |s.picked| && s.admitted[..k] == s.picked[..k]
  {
    hide Gather, Sum;
    GatherMember(s.cooks, i, CookHand);
    assert s.admitted[k] in CookHand(s.cooks[i]);
    assert s.admitted[k] in multiset(s.picked);
    var j :| 0 <= j < |s.picked| && s.picked[j] == s.admitted[k];
    assert s.admitted[j] == s.picked[j];
  }

  lemma IdleCook(cooks: seq<Cook>, i: nat)
    requires i < |cooks| && cooks[i].CookReady?
    ensures Sum(cooks, CookBusy) < |cooks|
  {
    var rest := cooks[..i] + cooks[i + 1..];
    SumWithout(cooks, i, CookBusy);
    SumAtMost(rest, CookBusy, 1);
  }

  lemma MissingAreInHand(picked: seq<Order>, before: seq<Order>, hands: multiset<Order>, forwarded: multiset<Order>)
    requires before <= picked
    requires multiset(picked) == hands + forwarded
    ensures |multiset(before) - forwarded| <= |hands|
  {
    assert picked == before + picked[|before|..];
    Difference(multiset(before), hands, forwarded);
    SubmultisetSize(multiset(before) - forwarded, hands);
  }

  lemma Difference<T>(a: multiset<T>, b: multiset<T>, c: multiset<T>)
    requires a <= b + c
    ensures a - c <= b
  {
    forall x: T | x in a - c
      ensures (a - c)[x] <= b[x]
    {
      assert a[x] <= (b + c)[x];
    }
  }

  lemma SubmultisetSize<T>(a: multiset<T>, b: multiset<T>)
    requires a <= b
    ensures |a| <= |b|
  {
    assert b == a + (b - a);
  }

  lemma {:induction false} PoolsKeepTheirSize(cooks: nat, couriers: nat, events: seq<Event>)
    requires Run(Init(cooks, couriers), events).Some?
    ensures |Run(Init(cooks, couriers), events).value.cooks| == cooks
    ensures |Run(Init(cooks, couriers), events).value.couriers| == couriers
  {
    if events != [] {
      PoolsKeepTheirSize(cooks, couriers, events[..|events| - 1]);
    }
  }

  /* ---- The oven ---- */

  /** The oven holds exactly the orders of the cooks between insert and remove, six at most. */
  lemma OvenHoldsItsCooks(cooks: nat, couriers: nat, events: seq<Event>, s: State)
    requires Reached(cooks, couriers, events, s)
    ensures |s.oven| == Sum(s.cooks, CookInOven) <= 6
    ensures multiset(Ids(s.oven)) == Gather(s.cooks, OvenId)
    ensures DistinctIds(s.admitted) ==> multiset(s.oven) == Gather(s.cooks, OvenCopy)
  {
    RunKeeps(cooks, couriers, events);
    OvenCounted(s);
  }

  lemma OvenCounted(s: State)
    requires OvenAgrees(s)
    ensures |s.oven| == Sum(s.cooks, CookInOven)
  {
    GatherSize(s.cooks, OvenId, CookInOven);
    hide Gather, Sum;
    assert |multiset(Ids(s.oven))| == |s.oven|;
  }

  /** With distinct order ids the remove phase takes out the cook's own order, and nothing else moves. */
  lemma CookRemovesItsOwn(cooks: nat, couriers: nat, events: seq<Event>, s: State, i: nat) returns (k: nat)
    requires Reached(cooks, couriers, events, s) && Enabled(s, OvenRemove(i)) && DistinctIds(s.admitted)
    ensures k < |s.oven| && s.oven[k] == s.cooks[i].order
    ensures Apply(s, OvenRemove(i)).oven == s.oven[..k] + s.oven[k + 1..]
  {
    RunKeeps(cooks, couriers, events);
    k := FindOwn(s, i);
    RemoveFirstByIdAt(s.oven, k, s.cooks[i].order.id);
  }

  /** A cook asleep on the oven leaves six cooks awake in the remove phase. */
  lemma OvenSleeperHasSixAhead(cooks: nat, couriers: nat, events: seq<Event>, s: State, i: nat)
    requires Reached(cooks, couriers, events, s) && i < |s.cooks| && s.cooks[i].OvenAsleep?
    ensures |s.oven| == 6 && Sum(s.cooks, CookInOven) == 6
  {
    RunKeeps(cooks, couriers, events);
    OvenCounted(s);
  }

  /** Ids given out when sessions of these sizes follow one another: each takes one number for the
      client and one for each order. */
  function SessionIds(counter: int, sizes: seq<nat>): seq<int>
    decreases |sizes|
  {
    if sizes == [] then []
    else seq(sizes[0], i => counter + 1 + i) + SessionIds(counter + 1 + sizes[0], sizes[1..])
  }

  /** Sessions one at a time never give the same id twice, as the two lemmas above ask. */
  lemma {:induction false} SessionIdsDistinct(counter: int, sizes: seq<nat>)
    ensures forall i :: 0 <= i < |SessionIds(counter, sizes)| ==> SessionIds(counter, sizes)[i] > counter
    ensures forall i, j :: 0 <= i < j < |SessionIds(counter, sizes)| ==>
              SessionIds(counter, sizes)[i] < SessionIds(counter, sizes)[j]
    decreases |sizes|
  {
    if sizes != [] {
      SessionIdsDistinct(counter + 1 + sizes[0], sizes[1..]);
    }
  }

  function Total(sizes: seq<nat>): nat {
    if sizes == [] then 0 else sizes[0] + Total(sizes[1..])
  }

  /** The m-th order of the k-th session has the number of all orders before it, of the sessions so far
      and of its own added to the counter. */
  lemma {:induction false} SessionIdOf(counter: int, sizes: seq<nat>, k: nat, m: nat)
    requires k < |sizes| && m < sizes[k]
    ensures Total(sizes[..k]) + m < |SessionIds(counter, sizes)|
    ensures SessionIds(counter, sizes)[Total(sizes[..k]) + m] == counter + (k + 1) + (Total(sizes[..k]) + m)
    decreases k
  {
    if k == 0 {
      assert sizes[..0] == [];
    } else {
      SessionIdOf(counter + 1 + sizes[0], sizes[1..], k - 1, m);
      assert sizes[..k][1..] == sizes[1..][..k - 1] && sizes[..k][0] == sizes[0];
    }
  }

  /** `clientCounter` before the first session. */
  const FIRST_CLIENT := 1

  /** So in every run whose orders got their ids like this, the last session perhaps unfinished, the
      orders have distinct ids, and the oven holds the copies of the cooks in it and nothing else. */
  lemma OvenInSessions(cooks: nat, couriers: nat, events: seq<Event>, s: State, sizes: seq<nat>)
    requires Reached(cooks, couriers, events, s) && Ids(s.admitted) <= SessionIds(FIRST_CLIENT, sizes)
    ensures DistinctIds(s.admitted) && multiset(s.oven) == Gather(s.cooks, OvenCopy)
  {
    hide Gather, Sum, Run;
    RunKeeps(cooks, couriers, events);
    SessionIdsDistinct(FIRST_CLIENT, sizes);
    hide SessionIds;
    assert forall i :: 0 <= i < |s.admitted| ==> Ids(s.admitted)[i] == SessionIds(FIRST_CLIENT, sizes)[i];
    forall i, j | 0 <= i < j < |s.admitted|
      ensures s.admitted[i].id != s.admitted[j].id
    {
      assert Ids(s.admitted)[i] == s.admitted[i].id && Ids(s.admitted)[j] == s.admitted[j].id;
    }
  }

  /* ---- State and place ---- */

  /** An order is Received up to the oven, Cooking in it and until it is forwarded, Ready in the
      delivery queue; so the couriers' check never drops one. */
  lemma StatesFollowPlaces(cooks: nat, couriers: nat, events: seq<Event>, s: State)
    requires Reached(cooks, couriers, events, s)
    ensures forall i :: 0 <= i < |s.orderQueue| ==> s.orderQueue[i].state == Received
    ensures forall i :: 0 <= i < |s.cookQueue| ==> s.cookQueue[i].state == Received
    ensures forall i :: 0 <= i < |s.oven| ==> s.oven[i].state == Cooking
    ensures forall i :: 0 <= i < |s.deliveryQueue| ==> s.deliveryQueue[i].state == Ready
    ensures s.skipped == []
  {
    hide Gather, Sum;
    RunKeeps(cooks, couriers, events);
    hide Run, HandsAddUp, OvenAgrees, NoLostWakeup;
    assert forall i :: 0 <= i < |s.cookQueue| ==> s.cookQueue[i] == s.admitted[|s.picked| + i];
    var before := s.picked + s.cookQueue + ManagerHand(s.manager);
    assert forall i :: 0 <= i < |s.orderQueue| ==> s.orderQueue[i] == s.admitted[|before| + i];
    assert forall i :: 0 <= i < |s.deliveryQueue| ==> s.deliveryQueue[i] == s.forwarded[|s.collected| + i];
  }
}
