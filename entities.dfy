/**
 * The rows of the relational store the order controller reads and writes.
 * Money is in integer euro cents; timestamps are integer milliseconds and a
 * nullable timestamp column is an `Option<int>`.
 */
module Entities {
  import opened Wrappers

  /** A product row. `availability` is a nullable boolean column. */
  datatype Product = Product(id: int, price: int, availability: Option<bool>, restaurantId: int)

  /** A restaurant row: its owner, its flat shipping cost and its service-time metric. */
  datatype Restaurant = Restaurant(id: int, userId: int, shippingCosts: int, averageServiceMinutes: Option<int>)

  /** An order header row. */
  datatype Order = Order(
    id: int,
    userId: int,
    restaurantId: int,
    address: string,
    price: int,
    shippingCosts: int,
    createdAt: int,
    startedAt: Option<int>,
    sentAt: Option<int>,
    deliveredAt: Option<int>)

  /** A row of the order/product association: quantity and the unit price snapshot. */
  datatype OrderLine = OrderLine(quantity: int, unityPrice: int)

  /**
   * One entry of a request's `products` array, after validation: the key the
   * product lookup resolved its id to, the quantity, and whether the id was
   * sent as a JSON number. A decimal text id reaches the same row through the
   * lookup but never equals the row's numeric id under strict comparison.
   */
  datatype LineRequest = LineRequest(productId: int, quantity: int, sentAsNumber: bool)
}
