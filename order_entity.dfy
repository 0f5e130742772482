/** The order domain: `OrderStatus`, `OrderItem`, `OrderEntity` and the
    errors the order use cases raise. */
module OrderEntity {
  import opened Common

  type OrderId = nat
  type UserId = nat

  datatype OrderStatus = PENDING | PAID | FAILED | CANCELLED

  /** One priced line: the catalog's name and price at creation time and the
      requested quantity. Amounts are integers in minor currency units. */
  datatype OrderItem = OrderItem(productId: string, productName: string, quantity: int, unitPrice: int)

  /** A stored order. `updatedAt` is not part of the model; `createdAt` is
      set once, at creation. */
  datatype Order = Order(
    id: OrderId,
    userId: UserId,
    items: seq<OrderItem>,
    totalAmount: int,
    currency: string,
    status: OrderStatus,
    stripePaymentIntentId: string,
    paidAt: Option<Time>,
    createdAt: Time)

  /** The errors of the order use cases. `UndefinedDereference` is the
      `TypeError` raised by `missingProduct!.productId` when `find` returns
      `undefined`; `Gateway` carries what the payment provider threw. */
  datatype OrderError =
    | ProductNotFound(productId: string)
    | EmptyOrderItems
    | InvalidQuantity
    | OrderNotFound
    | OrderCannotBeCancelled
    | UndefinedDereference
    | Gateway(thrown: Thrown)

  /** The sum of `quantity * unitPrice` over the lines. */
  function LinesTotal(items: seq<OrderItem>): int
  {
    if items == [] then 0
    else LinesTotal(items[..|items| - 1]) + items[|items| - 1].quantity * items[|items| - 1].unitPrice
  }
}
