/** `CancelOrderUseCase`: a user withdraws one of their own pending orders;
    its payment intent, if it has one, is cancelled at the provider first. */
module CancelOrder {
  import opened Common
  import opened OrderEntity
  import opened OrdersRepository

  /** `execute`. `cancelPaymentIntent` stands for the provider's call;
      `cancelled` reports the intent id it was called with, if it was. */
  method Execute(orderRepository: OrderRepository, orderId: OrderId, userId: UserId,
                 cancelPaymentIntent: string -> Result<(), Thrown>)
    returns (r: Result<Order, OrderError>, cancelled: Option<string>)
    requires orderRepository.Valid()
    modifies orderRepository
    ensures orderRepository.Valid() && orderRepository.nextId == old(orderRepository.nextId)
    // only the owner's PENDING order can be cancelled; anything else is refused untouched
    ensures !(orderId in old(orderRepository.orders) && old(orderRepository.orders)[orderId].userId == userId &&
              old(orderRepository.orders)[orderId].status == PENDING) ==>
      && r == Err(OrderCannotBeCancelled)
      && cancelled.None?
      && orderRepository.orders == old(orderRepository.orders)
    // the owner's PENDING order is never refused as ineligible
    ensures (orderId in old(orderRepository.orders) && old(orderRepository.orders)[orderId].userId == userId &&
             old(orderRepository.orders)[orderId].status == PENDING) ==> r != Err(OrderCannotBeCancelled)
    // the provider is asked exactly when the order carries a payment intent id
    ensures r != Err(OrderCannotBeCancelled) ==>
      var o := old(orderRepository.orders)[orderId];
      && orderId in old(orderRepository.orders)
      && cancelled == (if o.stripePaymentIntentId != "" then Some(o.stripePaymentIntentId) else None)
    // a refusal by the provider leaves the order as it was
    ensures cancelled.Some? && cancelPaymentIntent(cancelled.value).Err? ==>
      && r == Err(Gateway(cancelPaymentIntent(cancelled.value).error))
      && orderRepository.orders == old(orderRepository.orders)
    // otherwise the order, and only it, becomes CANCELLED; its payment date is kept
    ensures r.Ok? <==>
      && r != Err(OrderCannotBeCancelled)
      && (cancelled.None? || cancelPaymentIntent(cancelled.value).Ok?)
    ensures r.Ok? ==>
      && old(orderRepository.orders)[orderId].status == PENDING
      && r.value == old(orderRepository.orders)[orderId].(status := CANCELLED)
      && orderRepository.orders == old(orderRepository.orders)[orderId := r.value]
  {
    cancelled := None;
    var order := orderRepository.FindPendingByIdAndUserId(orderId, userId);
    if order.None? {
      return Err(OrderCannotBeCancelled), None;
    }
    if order.value.stripePaymentIntentId != "" {
      cancelled := Some(order.value.stripePaymentIntentId);
      var gateway := cancelPaymentIntent(order.value.stripePaymentIntentId);
      if gateway.Err? {
        return Err(Gateway(gateway.error)), cancelled;
      }
    }
    var updatedOrder := orderRepository.UpdateStatus(order.value.id, CANCELLED, None);
    // the order was found a moment ago and nothing removes orders, so `updatedOrder!` holds
    r := Ok(updatedOrder.value);
  }
}
