/** `GetOrderUseCase`: one order, visible only to the user who placed it. */
module GetOrder {
  import opened Common
  import opened OrderEntity
  import opened OrdersRepository

  /** `execute`: the order when it exists and belongs to `userId`; otherwise
      `OrderNotFound`, so another user's order is indistinguishable from a
      missing one. */
  function Execute(orderRepository: OrderRepository, orderId: OrderId, userId: UserId): (r: Result<Order, OrderError>)
    reads orderRepository
    requires orderRepository.Valid()
    ensures r.Ok? <==> orderId in orderRepository.orders && orderRepository.orders[orderId].userId == userId
    ensures r.Ok? ==> r.value == orderRepository.orders[orderId] && r.value.id == orderId
    ensures r.Err? ==> r.error == OrderNotFound
  {
    match orderRepository.FindByIdAndUserId(orderId, userId)
    case None => Err(OrderNotFound)
    case Some(order) => Ok(order)
  }
}
