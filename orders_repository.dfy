/** `OrderRepository`: the order collection, held in memory.

    Mongo plumbing (`toEntity`, `ObjectId` conversion, timestamps) is not
    part of this model: an order is stored and returned as one value. Every
    operation runs on its own; the source issues no conditional update, so
    what interleaved requests could do is outside this model. */
module OrdersRepository {
  import opened Common
  import opened OrderEntity

  /** A Mongo query document over the order fields the source filters on;
      `None` leaves a field unconstrained. */
  datatype OrderFilter = OrderFilter(
    id: Option<OrderId>,
    userId: Option<UserId>,
    status: Option<OrderStatus>,
    stripePaymentIntentId: Option<string>)

  predicate Matches(o: Order, f: OrderFilter)
  {
    && (f.id.Some? ==> o.id == f.id.value)
    && (f.userId.Some? ==> o.userId == f.userId.value)
    && (f.status.Some? ==> o.status == f.status.value)
    && (f.stripePaymentIntentId.Some? ==> o.stripePaymentIntentId == f.stripePaymentIntentId.value)
  }

  /** Every stored order sits under its own id, and ids already handed out
      are below `nextId`. */
  ghost predicate WellFormed(orders: map<OrderId, Order>, nextId: nat)
  {
    forall id :: id in orders ==> id < nextId && orders[id].id == id
  }

  /** `findOne`: the first order, in insertion (id) order from `from` on,
      that matches the filter. */
  function FirstMatch(orders: map<OrderId, Order>, nextId: nat, f: OrderFilter, from: nat): (r: Option<OrderId>)
    decreases nextId - from
    ensures r.Some? ==> from <= r.value < nextId && r.value in orders && Matches(orders[r.value], f)
    ensures r.Some? ==> forall k :: from <= k < r.value && k in orders ==> !Matches(orders[k], f)
    ensures r.None? ==> forall k :: from <= k < nextId && k in orders ==> !Matches(orders[k], f)
  {
    if from >= nextId then None
    else if from in orders && Matches(orders[from], f) then Some(from)
    else FirstMatch(orders, nextId, f, from + 1)
  }

  /** The update document `{ status, paidAt? }` applied to one order:
      `paidAt` is written only when one is supplied. */
  function ApplyUpdate(o: Order, status: OrderStatus, paidAt: Option<Time>): (r: Order)
    ensures r.status == status
    ensures paidAt.Some? ==> r.paidAt == paidAt
    ensures paidAt.None? ==> r.paidAt == o.paidAt
    ensures r.(status := o.status, paidAt := o.paidAt) == o
  {
    o.(status := status, paidAt := if paidAt.Some? then paidAt else o.paidAt)
  }

  function IntentFilter(paymentIntentId: string): OrderFilter
  {
    OrderFilter(None, None, None, Some(paymentIntentId))
  }

  /** The order `findOneAndUpdate({ stripePaymentIntentId })` picks. */
  function IntentTarget(orders: map<OrderId, Order>, nextId: nat, paymentIntentId: string): Option<OrderId>
  {
    FirstMatch(orders, nextId, IntentFilter(paymentIntentId), 0)
  }

  /** `k` is the first stored order, in id order, carrying the intent. */
  predicate FirstCarrier(orders: map<OrderId, Order>, nextId: nat, paymentIntentId: string, k: OrderId)
  {
    && k in orders && k < nextId
    && orders[k].stripePaymentIntentId == paymentIntentId
    && forall j :: 0 <= j < k && j in orders ==> orders[j].stripePaymentIntentId != paymentIntentId
  }

  /** The collection after `updateStatusByPaymentIntentId`: the first
      carrier of the intent gets the update, every other order is left as it
      was, and nothing is added or removed. */
  function UpdateByIntent(orders: map<OrderId, Order>, nextId: nat, paymentIntentId: string,
                          status: OrderStatus, paidAt: Option<Time>): (r: map<OrderId, Order>)
    ensures r.Keys == orders.Keys
    ensures forall k :: k in orders ==>
      r[k] == (if FirstCarrier(orders, nextId, paymentIntentId, k) then ApplyUpdate(orders[k], status, paidAt) else orders[k])
  {
    match IntentTarget(orders, nextId, paymentIntentId)
    case None => orders
    case Some(k) => orders[k := ApplyUpdate(orders[k], status, paidAt)]
  }

  /** An update that keeps every key and what the filter sees of every order
      leaves `findOne` where it was. */
  lemma {:induction false} FirstMatchStable(orders: map<OrderId, Order>, orders': map<OrderId, Order>,
                                            nextId: nat, f: OrderFilter, from: nat)
    requires orders.Keys == orders'.Keys
    requires forall k :: k in orders ==> Matches(orders[k], f) == Matches(orders'[k], f)
    ensures FirstMatch(orders, nextId, f, from) == FirstMatch(orders', nextId, f, from)
    decreases nextId - from
  {
    if from < nextId {
      FirstMatchStable(orders, orders', nextId, f, from + 1);
    }
  }

  /** `updateStatusByPaymentIntentId` touches at most one order, the one
      `findOne` picks, and keeps the store well formed. */
  lemma UpdateByIntentEffect(orders: map<OrderId, Order>, nextId: nat, paymentIntentId: string,
                             status: OrderStatus, paidAt: Option<Time>)
    requires WellFormed(orders, nextId)
    ensures var m := UpdateByIntent(orders, nextId, paymentIntentId, status, paidAt);
            && WellFormed(m, nextId)
            && m.Keys == orders.Keys
            && (IntentTarget(orders, nextId, paymentIntentId).None? <==>
                  forall k :: k in orders ==> orders[k].stripePaymentIntentId != paymentIntentId)
            && (IntentTarget(orders, nextId, paymentIntentId).None? ==> m == orders)
            && (forall k :: k in orders && IntentTarget(orders, nextId, paymentIntentId) != Some(k) ==> m[k] == orders[k])
  {
  }

  /** The owner's orders with ids below `n`, in id order. */
  function Owned(orders: map<OrderId, Order>, userId: UserId, n: nat): seq<Order>
  {
    if n == 0 then []
    else
      var tail := if n - 1 in orders && orders[n - 1].userId == userId then [orders[n - 1]] else [];
      Owned(orders, userId, n - 1) + tail
  }

  lemma {:induction false} OwnedMembers(orders: map<OrderId, Order>, nextId: nat, userId: UserId, n: nat, o: Order)
    requires WellFormed(orders, nextId)
    ensures o in Owned(orders, userId, n) <==> o.id < n && o.id in orders && orders[o.id] == o && o.userId == userId
  {
    if n > 0 {
      OwnedMembers(orders, nextId, userId, n - 1, o);
    }
  }

  predicate SortedByCreatedDesc(s: seq<Order>)
  {
    forall i, j :: 0 <= i < j < |s| ==> s[i].createdAt >= s[j].createdAt
  }

  /** Inserts `o` before the first order strictly older than it, so that
      orders with equal `createdAt` keep their relative order. */
  function InsertByCreatedDesc(s: seq<Order>, o: Order): (r: seq<Order>)
    ensures multiset(r) == multiset(s) + multiset{o}
    ensures |r| == |s| + 1 && (r[0] == o || (s != [] && r[0] == s[0]))
  {
    if s == [] then [o]
    else if s[0].createdAt < o.createdAt then [o] + s
    else
      assert s == [s[0]] + s[1..];
      [s[0]] + InsertByCreatedDesc(s[1..], o)
  }

  lemma {:induction false} InsertKeepsSorted(s: seq<Order>, o: Order)
    requires SortedByCreatedDesc(s)
    ensures SortedByCreatedDesc(InsertByCreatedDesc(s, o))
  {
    if s != [] && s[0].createdAt >= o.createdAt {
      var rest := InsertByCreatedDesc(s[1..], o);
      InsertKeepsSorted(s[1..], o);
      var r := [s[0]] + rest;
      assert s[0].createdAt >= rest[0].createdAt;
      forall i, j | 0 <= i < j < |r| ensures r[i].createdAt >= r[j].createdAt {
        if i > 0 {
          assert r[i] == rest[i - 1] && r[j] == rest[j - 1];
        } else if j > 1 {
          assert r[j] == rest[j - 1];
          assert rest[0].createdAt >= rest[j - 1].createdAt;
        }
      }
    }
  }

  /** `.sort({ createdAt: -1 })`. */
  function SortByCreatedDesc(s: seq<Order>): (r: seq<Order>)
    ensures multiset(r) == multiset(s)
    ensures SortedByCreatedDesc(r)
  {
    if s == [] then []
    else
      assert s == s[..|s| - 1] + [s[|s| - 1]];
      var sorted := SortByCreatedDesc(s[..|s| - 1]);
      InsertKeepsSorted(sorted, s[|s| - 1]);
      InsertByCreatedDesc(sorted, s[|s| - 1])
  }

  class OrderRepository {
    var orders: map<OrderId, Order>
    var nextId: nat

    ghost predicate Valid()
      reads this
    {
      WellFormed(orders, nextId)
    }

    constructor ()
      ensures Valid() && orders == map[] && nextId == 0
    {
      orders := map[];
      nextId := 0;
    }

    /** `create`: a new PENDING order with exactly the given data, under a
        fresh id. */
    method Create(userId: UserId, items: seq<OrderItem>, totalAmount: int, currency: string,
                  stripePaymentIntentId: string, now: Time) returns (order: Order)
      requires Valid()
      modifies this
      ensures Valid()
      ensures order.id == old(nextId) && order.id !in old(orders) && nextId == old(nextId) + 1
      ensures order == Order(order.id, userId, items, totalAmount, currency, PENDING,
                             stripePaymentIntentId, None, now)
      ensures orders == old(orders)[order.id := order]
    {
      order := Order(nextId, userId, items, totalAmount, currency, PENDING, stripePaymentIntentId, None, now);
      orders := orders[nextId := order];
      nextId := nextId + 1;
    }

    /** `findByUserId`: exactly the caller's orders, newest first. */
    function FindByUserId(userId: UserId): (r: seq<Order>)
      reads this
      requires Valid()
      ensures SortedByCreatedDesc(r)
      ensures forall o :: o in r <==> o.id in orders && orders[o.id] == o && o.userId == userId
      ensures multiset(r) == multiset(Owned(orders, userId, nextId))
    {
      var owned := Owned(orders, userId, nextId);
      var r := SortByCreatedDesc(owned);
      forall o ensures o in r <==> o.id in orders && orders[o.id] == o && o.userId == userId {
        assert o in r <==> o in multiset(owned);
        OwnedMembers(orders, nextId, userId, nextId, o);
      }
      r
    }

    /** `findByIdAndUserId`: the order only when its owner is the caller. */
    function FindByIdAndUserId(orderId: OrderId, userId: UserId): (r: Option<Order>)
      reads this
      requires Valid()
      ensures r.Some? <==> orderId in orders && orders[orderId].userId == userId
      ensures r.Some? ==> r.value == orders[orderId]
    {
      match FirstMatch(orders, nextId, OrderFilter(Some(orderId), Some(userId), None, None), 0)
      case None => None
      case Some(k) => Some(orders[k])
    }

    /** `findPendingByIdAndUserId`: id, owner and status PENDING must all
        match. */
    function FindPendingByIdAndUserId(orderId: OrderId, userId: UserId): (r: Option<Order>)
      reads this
      requires Valid()
      ensures r.Some? <==> orderId in orders && orders[orderId].userId == userId && orders[orderId].status == PENDING
      ensures r.Some? ==> r.value == orders[orderId]
    {
      match FirstMatch(orders, nextId, OrderFilter(Some(orderId), Some(userId), Some(PENDING), None), 0)
      case None => None
      case Some(k) => Some(orders[k])
    }

    /** `updateStatus` (`findByIdAndUpdate`, returning the new document). */
    method UpdateStatus(orderId: OrderId, status: OrderStatus, paidAt: Option<Time>) returns (r: Option<Order>)
      requires Valid()
      modifies this
      ensures Valid() && nextId == old(nextId)
      ensures orderId !in old(orders) ==> r.None? && orders == old(orders)
      ensures orderId in old(orders) ==>
        r == Some(ApplyUpdate(old(orders)[orderId], status, paidAt)) && orders == old(orders)[orderId := r.value]
    {
      if orderId in orders {
        var updated := ApplyUpdate(orders[orderId], status, paidAt);
        orders := orders[orderId := updated];
        r := Some(updated);
      } else {
        r := None;
      }
    }

    /** `updateStatusByPaymentIntentId` (`findOneAndUpdate`). The status is
        written whatever it was before: there is no PENDING guard. `fault`
        is what the database call throws, if it fails. */
    method UpdateStatusByPaymentIntentId(paymentIntentId: string, status: OrderStatus, paidAt: Option<Time>,
                                         fault: Option<Thrown>) returns (r: Result<Option<Order>, Thrown>)
      requires Valid()
      modifies this
      ensures Valid() && nextId == old(nextId)
      ensures fault.Some? ==> r == Err(fault.value) && orders == old(orders)
      ensures fault.None? ==> orders == UpdateByIntent(old(orders), nextId, paymentIntentId, status, paidAt)
      ensures fault.None? ==> r == Ok(match IntentTarget(old(orders), nextId, paymentIntentId)
                                      case None => None
                                      case Some(k) => Some(orders[k]))
    {
      if fault.Some? {
        return Err(fault.value);
      }
      var target := FirstMatch(orders, nextId, IntentFilter(paymentIntentId), 0);
      match target {
        case None =>
          r := Ok(None);
        case Some(k) =>
          var updated := ApplyUpdate(orders[k], status, paidAt);
          orders := orders[k := updated];
          r := Ok(Some(updated));
      }
    }
  }

  lemma {:induction false} OwnedDistinct(orders: map<OrderId, Order>, nextId: nat, userId: UserId, n: nat)
    requires WellFormed(orders, nextId)
    ensures forall i, j :: 0 <= i < j < |Owned(orders, userId, n)| ==>
      Owned(orders, userId, n)[i].id < Owned(orders, userId, n)[j].id < n
  {
    if n > 0 {
      OwnedDistinct(orders, nextId, userId, n - 1);
      var s := Owned(orders, userId, n - 1);
      forall o | o in s ensures o.id < n - 1 {
        OwnedMembers(orders, nextId, userId, n - 1, o);
      }
    }
  }
}
