/** The three webhook handlers: `SuccessPaymentHandler`,
    `FailedPaymentHandler` and `CancelledPaymentHandler`. Each makes one call
    to `updateStatusByPaymentIntentId` with a fixed status; none of them looks
    at the order's current status. Logging is not part of the model. */
module PaymentHandlers {
  import opened Common
  import opened OrderEntity
  import opened OrdersRepository

  /** `SuccessPaymentHandler.handle`: PAID, with `paidAt` the handling time. */
  method HandleSuccess(orderRepository: OrderRepository, paymentIntentId: string, now: Time, fault: Option<Thrown>)
    returns (r: Result<(), Thrown>)
    requires orderRepository.Valid()
    modifies orderRepository
    ensures orderRepository.Valid() && orderRepository.nextId == old(orderRepository.nextId)
    ensures fault.Some? ==> r == Err(fault.value) && orderRepository.orders == old(orderRepository.orders)
    ensures fault.None? ==> r == Ok(())
    ensures fault.None? ==> orderRepository.orders ==
                            UpdateByIntent(old(orderRepository.orders), orderRepository.nextId, paymentIntentId, PAID, Some(now))
  {
    var updated := orderRepository.UpdateStatusByPaymentIntentId(paymentIntentId, PAID, Some(now), fault);
    if updated.Err? {
      return Err(updated.error);
    }
    r := Ok(());
  }

  /** `FailedPaymentHandler.handle`: FAILED, no `paidAt`. */
  method HandleFailed(orderRepository: OrderRepository, paymentIntentId: string, fault: Option<Thrown>)
    returns (r: Result<(), Thrown>)
    requires orderRepository.Valid()
    modifies orderRepository
    ensures orderRepository.Valid() && orderRepository.nextId == old(orderRepository.nextId)
    ensures fault.Some? ==> r == Err(fault.value) && orderRepository.orders == old(orderRepository.orders)
    ensures fault.None? ==> r == Ok(())
    ensures fault.None? ==> orderRepository.orders ==
                            UpdateByIntent(old(orderRepository.orders), orderRepository.nextId, paymentIntentId, FAILED, None)
  {
    var updated := orderRepository.UpdateStatusByPaymentIntentId(paymentIntentId, FAILED, None, fault);
    if updated.Err? {
      return Err(updated.error);
    }
    r := Ok(());
  }

  /** `CancelledPaymentHandler.handle`: CANCELLED, no `paidAt`. */
  method HandleCancelled(orderRepository: OrderRepository, paymentIntentId: string, fault: Option<Thrown>)
    returns (r: Result<(), Thrown>)
    requires orderRepository.Valid()
    modifies orderRepository
    ensures orderRepository.Valid() && orderRepository.nextId == old(orderRepository.nextId)
    ensures fault.Some? ==> r == Err(fault.value) && orderRepository.orders == old(orderRepository.orders)
    ensures fault.None? ==> r == Ok(())
    ensures fault.None? ==> orderRepository.orders ==
                            UpdateByIntent(old(orderRepository.orders), orderRepository.nextId, paymentIntentId, CANCELLED, None)
  {
    var updated := orderRepository.UpdateStatusByPaymentIntentId(paymentIntentId, CANCELLED, None, fault);
    if updated.Err? {
      return Err(updated.error);
    }
    r := Ok(());
  }

  /** The order the intent id designates gets the handler's status whatever
      its status was (PAID, FAILED or CANCELLED included); only `paidAt` may
      change besides, and only when one is supplied. */
  lemma HandlerOverwritesStatus(orders: map<OrderId, Order>, nextId: nat, paymentIntentId: string,
                                status: OrderStatus, paidAt: Option<Time>, k: OrderId)
    requires WellFormed(orders, nextId)
    requires IntentTarget(orders, nextId, paymentIntentId) == Some(k)
    ensures var m := UpdateByIntent(orders, nextId, paymentIntentId, status, paidAt);
            && m[k].status == status
            && m[k].paidAt == (if paidAt.Some? then paidAt else orders[k].paidAt)
            && m[k].(status := orders[k].status, paidAt := orders[k].paidAt) == orders[k]
  {
  }

  /** An update by intent id does not change which order that intent id
      designates. */
  lemma UpdateKeepsIntentTarget(orders: map<OrderId, Order>, nextId: nat, paymentIntentId: string,
                                status: OrderStatus, paidAt: Option<Time>)
    ensures IntentTarget(UpdateByIntent(orders, nextId, paymentIntentId, status, paidAt), nextId, paymentIntentId)
         == IntentTarget(orders, nextId, paymentIntentId)
  {
    var m := UpdateByIntent(orders, nextId, paymentIntentId, status, paidAt);
    var target := IntentTarget(orders, nextId, paymentIntentId);
    if target.Some? {
      var k := target.value;
      assert m == orders[k := ApplyUpdate(orders[k], status, paidAt)];
      assert forall j :: j in orders ==> Matches(orders[j], IntentFilter(paymentIntentId)) == Matches(m[j], IntentFilter(paymentIntentId));
      FirstMatchStable(orders, m, nextId, IntentFilter(paymentIntentId), 0);
    }
  }

  /** Two updates by the same intent id amount to the second one, except
      that `paidAt` keeps the first one's value when the second supplies
      none. */
  lemma UpdateByIntentTwice(orders: map<OrderId, Order>, nextId: nat, paymentIntentId: string,
                            s1: OrderStatus, p1: Option<Time>, s2: OrderStatus, p2: Option<Time>)
    ensures UpdateByIntent(UpdateByIntent(orders, nextId, paymentIntentId, s1, p1), nextId, paymentIntentId, s2, p2)
         == UpdateByIntent(orders, nextId, paymentIntentId, s2, if p2.Some? then p2 else p1)
  {
    UpdateKeepsIntentTarget(orders, nextId, paymentIntentId, s1, p1);
  }

  /** Replaying the FAILED handler (another event for the same intent) gives
      the state one application gives. */
  lemma FailedHandlerIdempotent(orders: map<OrderId, Order>, nextId: nat, paymentIntentId: string)
    ensures var once := UpdateByIntent(orders, nextId, paymentIntentId, FAILED, None);
            UpdateByIntent(once, nextId, paymentIntentId, FAILED, None) == once
  {
    UpdateByIntentTwice(orders, nextId, paymentIntentId, FAILED, None, FAILED, None);
  }

  /** Replaying the CANCELLED handler gives the state one application gives. */
  lemma CancelledHandlerIdempotent(orders: map<OrderId, Order>, nextId: nat, paymentIntentId: string)
    ensures var once := UpdateByIntent(orders, nextId, paymentIntentId, CANCELLED, None);
            UpdateByIntent(once, nextId, paymentIntentId, CANCELLED, None) == once
  {
    UpdateByIntentTwice(orders, nextId, paymentIntentId, CANCELLED, None, CANCELLED, None);
  }

  /** Replaying the PAID handler at a later time moves `paidAt` to that
      time: `paidAt` is not preserved on replay. */
  lemma SuccessReplayOverwritesPaidAt(orders: map<OrderId, Order>, nextId: nat, paymentIntentId: string,
                                      t1: Time, t2: Time, k: OrderId)
    requires WellFormed(orders, nextId)
    requires IntentTarget(orders, nextId, paymentIntentId) == Some(k)
    ensures var once := UpdateByIntent(orders, nextId, paymentIntentId, PAID, Some(t1));
            var twice := UpdateByIntent(once, nextId, paymentIntentId, PAID, Some(t2));
            once[k].paidAt == Some(t1) && twice[k].paidAt == Some(t2) && twice[k].status == PAID
  {
    UpdateByIntentTwice(orders, nextId, paymentIntentId, PAID, Some(t1), PAID, Some(t2));
  }

  /** Terminal states do not stay terminal: a cancellation or failure event
      for the intent of a PAID order turns it CANCELLED or FAILED, and its
      `paidAt` survives. */
  lemma PaidOrderLeavesPaid(orders: map<OrderId, Order>, nextId: nat, paymentIntentId: string, k: OrderId)
    requires WellFormed(orders, nextId)
    requires IntentTarget(orders, nextId, paymentIntentId) == Some(k)
    requires orders[k].status == PAID
    ensures forall s :: s in {CANCELLED, FAILED} ==>
      && UpdateByIntent(orders, nextId, paymentIntentId, s, None)[k].status == s
      && UpdateByIntent(orders, nextId, paymentIntentId, s, None)[k].paidAt == orders[k].paidAt
  {
    HandlerOverwritesStatus(orders, nextId, paymentIntentId, CANCELLED, None, k);
    HandlerOverwritesStatus(orders, nextId, paymentIntentId, FAILED, None, k);
  }
}
