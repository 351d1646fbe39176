/**
 * The product middlewares: each maps the data it fetched to "continue"
 * (`next()`) or to an HTTP status. A null row makes the property access
 * throw, which the catch block answers with 500.
 */
module ProductMiddleware {
  import opened Wrappers
  import opened BodyValue

  datatype Response = Next | Status(code: int, message: string)

  const NotOwner: string := "Not enough privileges. This entity does not belong to you"
  const AlreadyOrdered: string := "This product has already been ordered"
  const NeedVisibilityOrAvailability: string := "You must set a visibleUntil date or availability"

  /** The failure a null dereference raises; its text is not modelled. */
  const ThrownError: string := "TypeError"

  /** A product row fetched with its restaurant (null when the association is missing). */
  datatype ProductWithRestaurant = ProductWithRestaurant(restaurantOwner: Option<int>)

  /** `checkProductOwnership`: `user` is `req.user.id` (absent when nobody is logged in). */
  function CheckProductOwnership(user: Option<int>, product: Option<ProductWithRestaurant>): (r: Response)
    ensures r == Next <==>
              user.Some? && product.Some? && product.value.restaurantOwner == Some(user.value)
    ensures r.Status? && r.code == 403 <==>
              user.Some? && product.Some? && product.value.restaurantOwner.Some? &&
              product.value.restaurantOwner.value != user.value
    ensures r.Status? ==> r.code in {403, 500}
  {
    if user.None? || product.None? || product.value.restaurantOwner.None? then Status(500, ThrownError)
    else if user.value == product.value.restaurantOwner.value then Next
    else Status(403, NotOwner)
  }

  /** `checkProductRestaurantOwnership`: `restaurantOwner` is the userId of the restaurant named by body.restaurantId. */
  function CheckProductRestaurantOwnership(user: Option<int>, restaurantOwner: Option<int>): (r: Response)
    ensures r == Next <==> user.Some? && restaurantOwner == Some(user.value)
    ensures r.Status? && r.code == 403 <==> user.Some? && restaurantOwner.Some? && restaurantOwner.value != user.value
    ensures r.Status? && r.code == 500 <==> user.None? || restaurantOwner.None?
  {
    if user.None? || restaurantOwner.None? then Status(500, ThrownError)
    else if user.value == restaurantOwner.value then Next
    else Status(403, NotOwner)
  }

  /** The two ownership checks agree whenever they look at the same restaurant. */
  lemma OwnershipChecksAgree(user: Option<int>, owner: Option<int>)
    ensures CheckProductOwnership(user, Some(ProductWithRestaurant(owner))) == CheckProductRestaurantOwnership(user, owner)
  {
  }

  /** `checkProductHasNotBeenOrdered`: `orders` are the ids of the orders holding the product (null product: absent). */
  function CheckProductHasNotBeenOrdered(orders: Option<seq<int>>, thrownMessage: string): (r: Response)
    ensures r == Next <==> orders == Some([])
    ensures r == Status(409, AlreadyOrdered) <==> orders.Some? && |orders.value| > 0
    ensures orders.None? ==> r == Status(500, thrownMessage)
  {
    if orders.None? then Status(500, thrownMessage)
    else if |orders.value| == 0 then Next
    else Status(409, AlreadyOrdered)
  }

  /** The two keys of `req.body` that `checkVisibleAndAvailability` reads. */
  datatype VisibilityKeys = VisibilityKeys(visibleUntil: Value, availability: Value)

  /**
   * `checkVisibleAndAvailability`: only two explicit nulls are refused;
   * missing keys are not null. A missing body makes the access throw.
   */
  function CheckVisibleAndAvailability(body: Option<VisibilityKeys>, thrownMessage: string): (r: Response)
    ensures r == Status(422, NeedVisibilityOrAvailability) <==>
              body.Some? && body.value.visibleUntil == Null && body.value.availability == Null
    ensures r == Next <==> body.Some? && (body.value.visibleUntil != Null || body.value.availability != Null)
    ensures body.None? ==> r == Status(500, thrownMessage)
  {
    if body.None? then Status(500, thrownMessage)
    else if body.value.visibleUntil == Null && body.value.availability == Null then
      Status(422, NeedVisibilityOrAvailability)
    else Next
  }

  /** A body that leaves either key out passes: the comparison is strict. */
  lemma MissingKeysAreNotNull(m: string)
    ensures CheckVisibleAndAvailability(Some(VisibilityKeys(Absent, Absent)), m) == Next
    ensures CheckVisibleAndAvailability(Some(VisibilityKeys(Absent, Null)), m) == Next
    ensures CheckVisibleAndAvailability(Some(VisibilityKeys(Null, Absent)), m) == Next
  {
  }
}
