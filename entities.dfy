/**
 * The stored shapes of the cart service: a cart aggregate and the product
 * copies embedded in it, as the document store keeps them.
 */
module Entities {
  import opened Wrappers

  /** A `System.Guid`; only equality is used. The all-zero Guid is `EmptyGuid`. */
  type Guid = nat

  const EmptyGuid: Guid := 0

  /** A `DateTime` value, as ticks. */
  type Timestamp = int

  /**
   * One product line of a cart. The same record serves as the stored entity
   * and as its data-transfer copy: both carry exactly these five fields and
   * every conversion between them copies all five.
   * `price` is a C# `decimal`, which is exact, hence `real`.
   */
  datatype CartItem = CartItem(
    productId: Guid,
    name: string,
    imageUrl: Option<string>,
    quantity: int,
    price: real)

  /** A stored cart document, keyed by `id`; `items` keeps insertion order. */
  datatype Cart = Cart(
    id: Guid,
    userId: Option<string>,
    createdAt: Option<Timestamp>,
    items: seq<CartItem>)

  /** `NotFoundException(entity, key)`. */
  datatype Error = NotFound(entity: string, key: Guid)

  /** True when some line of `items` is a copy of product `productId`. */
  predicate HasProduct(items: seq<CartItem>, productId: Guid) {
    exists k :: 0 <= k < |items| && items[k].productId == productId
  }
}
