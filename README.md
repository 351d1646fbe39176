# DeliverUS order and product core, modelled in Dafny

DeliverUS is a food-delivery application. Customers fill a cart on a
restaurant's screen and post it as an order. Owners confirm, send and deliver
orders. Products are validated before they are stored. This project models
the parts of the system that decide things. Each part's properties are
proved in Dafny.

- **Order controller** (`order_store.dfy`, `pricing.dfy`, `order_status.dfy`,
  `analytics.dfy`). A class `Store` holds the product, restaurant, order and
  order-line tables as maps.
  - `Create` and `Update` price the request: the sum of price × quantity over
    the entries, in order, plus the restaurant's flat shipping cost when the
    subtotal is at most 10 EUR. They stage the order lines and commit
    everything at the end or nothing at all, like the transaction they model.
  - `Destroy`, `Confirm`, `Send` and `Deliver` are the other write handlers.
  - The listing filter `GenerateFilterWhereClauses` pushes one where clause
    for a known status and one each for `from` and `to`, in the same sequence
    of `if`s as the controller; an empty or unknown status pushes nothing. It is proved to select exactly the orders its status,
    `from` and `to` parameters describe.
  - The analytics counts are functions over the order rows.
- **Order validation** (`order_validation.dfy`, `body_value.dfy`). The field
  rules of the create and update chains are functions over JSON values. The
  two custom product validators are methods with loops, proved against
  predicates that state what each validator accepts.
- **Order routes** (`order_routes.dfy`). A registration table of guard
  chains. Each guard is an abstract predicate; the first registration
  matching a request handles it, and the first failing guard answers it.
- **Product middleware and validation** (`product_middleware.dfy`,
  `product_validation.dfy`).
  - The four middleware decisions: continue, 403, 409, 422 or 500.
  - The product field rules.
  - The two nutrition rules: the 100-gram sum and the 1000-kcal cap.
- **Cart** (`cart.dfy`). Increment, decrement, cancel, and the payload of
  confirm, with the cart invariant and the undo property.
- **Flow** (`order_flow.dfy`). Lemmas that cross modules:
  - a post from a valid cart passes create's field rules;
  - a body create's chain accepts names existing products and an existing
    restaurant, so with numeric product ids the controller cannot fail; a
    product id sent as decimal text also passes the chain, but the
    controller's strict `find` then matches no entry and the create fails;
  - a repeated product is charged for every entry but stored once.

Conventions:
- Money is in integer euro cents. The 10 EUR threshold is 1000.
- Timestamps are integer milliseconds, and a nullable timestamp column is an
  `Option<int>`. The clock (`new Date()`, `moment()`) is a `now` or `today`
  parameter.
- A thrown error becomes a `Result` failure or a 500 response.
- A missing row (`findByPk` returning null) is a key absent from a map. A
  product id is looked up by the key it resolves to: a JSON number, or a
  decimal numeral that the database compares as a number.

Where the code and the design comments disagree, the model follows the code:
- the controller's `confirm`, `send` and `deliver` check no state (the route
  guards do);
- update's validator never looks at the order being edited or whether it is
  pending;
- the `delivered` listing filter also matches orders that are only sent;
- the destroy message appends the `restaurantId` route parameter, not the
  order id;
- the service-time metric is recomputed inside `deliver`;
- order create's chain checks that `restaurantId` is an integer, but not
  that the restaurant exists.

## Model

| member | source | states |
|---|---|---|
| Pricing.SubtotalAppend | Backend/proyecto2425/DeliverUS-Backend/src/controllers/OrderController.js:128-133 | the subtotal of two request parts concatenated is the sum of their subtotals (the loop accumulates entry by entry) |
| Pricing.Subtotal | Backend/proyecto2425/DeliverUS-Backend/src/controllers/OrderController.js:128-133 | the item subtotal: each entry's current product price times its quantity, summed in request order (its properties are the two lemmas below) |
| Pricing.SubtotalNonNegative | Backend/proyecto2425/DeliverUS-Backend/src/controllers/OrderController.js:128-133 | non-negative prices and quantities give a non-negative subtotal |
| Pricing.ApplyShipping | Backend/proyecto2425/DeliverUS-Backend/src/controllers/OrderController.js:135-140 | shipping is the restaurant's flat cost when the subtotal is at most 10 EUR and 0 otherwise, and the stored price is subtotal plus shipping |
| Pricing.ThresholdMakesTotalNonMonotone | Backend/proyecto2425/DeliverUS-Backend/src/controllers/OrderController.js:136-139 | with a flat cost above 1 cent, a 10.00 EUR order costs more in total than a 10.01 EUR one |
| Pricing.ShippingScenarios | Backend/proyecto2425/DeliverUS-Backend/src/controllers/OrderController.js:135-140 | 8 EUR of items pays 2.50 EUR shipping (10.50 total); 12 EUR pays none (12 total) |
| OrderStore.FindEntry | Backend/proyecto2425/DeliverUS-Backend/src/controllers/OrderController.js:168 | `find` with `===` returns nothing iff no entry names the product id as a number, and otherwise the first entry that does |
| OrderStore.StrictlyMatched | Backend/proyecto2425/DeliverUS-Backend/src/controllers/OrderController.js:167-170 | the condition for the `addProduct` loop not to throw: every fetched product is named by number in some entry |
| OrderStore.NumberIdsMatch | Backend/proyecto2425/DeliverUS-Backend/src/controllers/OrderController.js:167-170 | a request whose product ids were all sent as numbers is strictly matched |
| OrderStore.LineFor | Backend/proyecto2425/DeliverUS-Backend/src/controllers/OrderController.js:167-170 | a stored line's unit price is the product's current price and its quantity is that of the first entry naming the product by number |
| OrderStore.LinesFor | Backend/proyecto2425/DeliverUS-Backend/src/controllers/OrderController.js:165-170 | the line set an order ends up with: one line per distinct requested product |
| OrderStore.LinesForShape | Backend/proyecto2425/DeliverUS-Backend/src/controllers/OrderController.js:165-170 | the lines are keyed by exactly the requested product ids, each at the product's current price with the first numeric entry's quantity |
| OrderStore.Store.LookUpProducts | Backend/proyecto2425/DeliverUS-Backend/src/controllers/OrderController.js:128-133 | the lookup loop succeeds iff every product exists; it returns the rows in request order and the subtotal, or else the first missing id |
| OrderStore.Store.StageLines | Backend/proyecto2425/DeliverUS-Backend/src/controllers/OrderController.js:165-170 | the `addProduct` loop succeeds iff every fetched product is matched by an entry with a numeric id, and then yields the lines `LinesFor` describes; otherwise it fails at the first entry whose product has no numeric entry |
| OrderStore.Store.Create | Backend/proyecto2425/DeliverUS-Backend/src/controllers/OrderController.js:121-183 | create fails iff a product is missing, or shipping is due and the restaurant is missing, or some product is named only by text ids (the strict `find` throws); failure changes nothing; on success it stores the new order (body price/shippingCosts override the computed ones) and its lines, and nothing else |
| OrderStore.Store.Update | Backend/proyecto2425/DeliverUS-Backend/src/controllers/OrderController.js:191-239 | update fails iff a product is missing, or shipping is due and the product list is empty or the first product's restaurant is missing, or the order is missing, or some product is named only by text ids; failure changes nothing; success rewrites address, price and shipping and replaces the lines |
| OrderStore.Store.Destroy | Backend/proyecto2425/DeliverUS-Backend/src/controllers/OrderController.js:244-259 | the order and its lines are removed; the message is the success text plus the restaurantId parameter iff a row was deleted |
| OrderStore.Store.Confirm | Backend/proyecto2425/DeliverUS-Backend/src/controllers/OrderController.js:261-270 | only startedAt of the order is set to now; a missing order is a failure that changes nothing |
| OrderStore.Store.Send | Backend/proyecto2425/DeliverUS-Backend/src/controllers/OrderController.js:272-281 | only sentAt of the order is set to now; a missing order is a failure that changes nothing |
| OrderStore.Store.Deliver | Backend/proyecto2425/DeliverUS-Backend/src/controllers/OrderController.js:283-295 | deliveredAt is set and saved first; the restaurant's service metric is then updated, and a missing restaurant fails after the order is already delivered |
| OrderStatus.StatusOf | Backend/proyecto2425/DeliverUS-Backend/src/controllers/OrderController.js:7-46 | the status an order is in, read off which of startedAt, sentAt and deliveredAt are set |
| OrderStatus.StatusFilter | Backend/proyecto2425/DeliverUS-Backend/src/controllers/OrderController.js:7-46 | what each status of the query asks of the timestamps; an empty or unknown status asks nothing |
| OrderStatus.Listed | Backend/proyecto2425/DeliverUS-Backend/src/controllers/OrderController.js:5-65 | the orders a listing query asks for: matching the status, created at or after `from`, and at or before `to` plus one day |
| OrderStatus.GenerateFilterWhereClauses | Backend/proyecto2425/DeliverUS-Backend/src/controllers/OrderController.js:5-65 | an order satisfies the pushed clauses iff `Listed` holds of it; one clause per known status, `from` and `to`, and when `to` is given the last clause bounds createdAt by `to` plus one day |
| OrderStatus.StatusClausesMeaning | Backend/proyecto2425/DeliverUS-Backend/src/controllers/OrderController.js:9-45 | each status case's where clause holds exactly for the orders its status filter describes |
| OrderStatus.SelectedPush | Backend/proyecto2425/DeliverUS-Backend/src/controllers/OrderController.js:48-62 | pushing a clause narrows the selection to the orders that also satisfy it |
| OrderStatus.StatusFilterMatchesStatus | Backend/proyecto2425/DeliverUS-Backend/src/controllers/OrderController.js:9-45 | on well-formed orders the pending, in-process and sent filters match exactly that status, and `delivered` matches sent or delivered |
| OrderStatus.DeliveredFilterListsSentOrders | Backend/proyecto2425/DeliverUS-Backend/src/controllers/OrderController.js:39-44 | a sent order is listed under both `sent` and `delivered` |
| OrderStatus.ToBoundIncludesNextMidnight | Backend/proyecto2425/DeliverUS-Backend/src/controllers/OrderController.js:56-62 | the `to` clause admits an order created exactly at 00:00 of the day after `to` and rejects one created a millisecond later, so such an order is listed whenever the rest of the query admits it |
| OrderStatus.ConfirmFromPending | Backend/proyecto2425/DeliverUS-Backend/src/controllers/OrderController.js:261-266 | confirming a pending order makes it in process and keeps its timestamps well formed |
| OrderStatus.SendFromInProcess | Backend/proyecto2425/DeliverUS-Backend/src/controllers/OrderController.js:272-277 | sending an in-process order makes it sent and keeps it well formed |
| OrderStatus.DeliverFromSent | Backend/proyecto2425/DeliverUS-Backend/src/controllers/OrderController.js:283-287 | delivering a sent order makes it delivered and keeps it well formed |
| OrderStatus.SendOnPendingBreaksOrder | Backend/proyecto2425/DeliverUS-Backend/src/controllers/OrderController.js:272-277 | without the route guard, sending a pending order breaks the timestamp order and lists it as pending, sent and delivered at once |
| OrderStatus.ConfirmTwiceOverwrites | Backend/proyecto2425/DeliverUS-Backend/src/controllers/OrderController.js:261-266 | confirming an already started order keeps its status, and confirming a sent order after its send time breaks the timestamp order |
| OrderStatus.FullLifecycle | Backend/proyecto2425/DeliverUS-Backend/src/controllers/OrderController.js:261-287 | confirm, send and deliver in time order take a new order to delivered with well-formed timestamps |
| Analytics.Count | Backend/proyecto2425/DeliverUS-Backend/src/controllers/OrderController.js:325-348 | a count never exceeds the number of rows |
| Analytics.Where | Backend/proyecto2425/DeliverUS-Backend/src/controllers/OrderController.js:350-358 | the selected rows are exactly the rows satisfying the filter, as many as the count |
| Analytics.CountZero | Backend/proyecto2425/DeliverUS-Backend/src/controllers/OrderController.js:325-348 | a count is zero iff no row satisfies its filter |
| Analytics.NumYesterdayOrders | Backend/proyecto2425/DeliverUS-Backend/src/controllers/OrderController.js:325-334 | yesterday's count never exceeds the rows and is zero iff no order of the restaurant was created in [yesterday 00:00, today 00:00) |
| Analytics.NumPendingOrders | Backend/proyecto2425/DeliverUS-Backend/src/controllers/OrderController.js:335-341 | the pending count never exceeds the rows and is zero iff no order of the restaurant has a null startedAt |
| Analytics.NumDeliveredTodayOrders | Backend/proyecto2425/DeliverUS-Backend/src/controllers/OrderController.js:342-348 | the delivered-today count never exceeds the rows and is zero iff no order of the restaurant was delivered since today 00:00 |
| Analytics.InvoicedToday | Backend/proyecto2425/DeliverUS-Backend/src/controllers/OrderController.js:350-358 | the invoiced sum is null iff no order of the restaurant was created since today's midnight |
| Analytics.AnalyticsOfNewRow | Backend/proyecto2425/DeliverUS-Backend/src/controllers/OrderController.js:321-348 | one more row raises each count by one exactly when it falls in that count's window and belongs to the restaurant |
| Analytics.PendingAndStartedPartition | Backend/proyecto2425/DeliverUS-Backend/src/controllers/OrderController.js:335-341 | pending orders plus started orders are all the restaurant's orders |
| Analytics.PendingCountIsPendingStatus | Backend/proyecto2425/DeliverUS-Backend/src/controllers/OrderController.js:335-341 | on well-formed rows the pending count is the number of orders whose status is pending |
| Analytics.MidnightBelongsToToday | Backend/proyecto2425/DeliverUS-Backend/src/controllers/OrderController.js:322-358 | an order created exactly at today's midnight counts for today, not yesterday |
| Analytics.InvoicedOfNewRow | Backend/proyecto2425/DeliverUS-Backend/src/controllers/OrderController.js:350-358 | adding a row adds its price to the invoiced sum exactly when the row is the restaurant's and created since today's midnight, a null sum counting as 0; otherwise the sum is unchanged |
| Analytics.InvoicedNonNegative | Backend/proyecto2425/DeliverUS-Backend/src/controllers/OrderController.js:350-358 | with non-negative prices the invoiced sum, or 0 when null, is non-negative |
| Analytics.SumPricesNonNegative | Backend/proyecto2425/DeliverUS-Backend/src/controllers/OrderController.js:350-358 | non-negative prices give a non-negative invoiced sum |
| BodyValue.LeadingSpaces | proyecto2425/DeliverUS-Backend/src/controllers/validation/OrderValidation.js:13 | the count of leading whitespace characters: all of them are spaces and the next one is not |
| BodyValue.EndWithoutSpaces | proyecto2425/DeliverUS-Backend/src/controllers/validation/OrderValidation.js:13 | the length without trailing whitespace: everything after it is space and the last kept character is not |
| BodyValue.Trim | proyecto2425/DeliverUS-Backend/src/controllers/validation/OrderValidation.js:13 | `trim` gives a slice of the input with no whitespace at either end, the dropped prefix and suffix being all whitespace; empty iff the input is all whitespace |
| BodyValue.NumeralRoundTrip | proyecto2425/DeliverUS-Backend/src/controllers/validation/OrderValidation.js:16-17 | the decimal text of a non-negative number reads back as that number |
| OrderValidation.QuantityErrors | proyecto2425/DeliverUS-Backend/src/controllers/validation/OrderValidation.js:12 | no quantity error iff every entry's quantity is an integer at least 1; errors carry the failing indexes |
| OrderValidation.SharedFieldsMeaning | proyecto2425/DeliverUS-Backend/src/controllers/validation/OrderValidation.js:11-13 | the shared rules pass iff products is a non-empty array of entries with integer quantities at least 1 and address is a string of 1..255 characters |
| OrderValidation.BlankAddressAccepted | proyecto2425/DeliverUS-Backend/src/controllers/validation/OrderValidation.js:13 | an address of blanks passes the length rule and is trimmed to the empty string |
| OrderValidation.KeyOf | proyecto2425/DeliverUS-Backend/src/controllers/validation/OrderValidation.js:16-17 | in the model, an id resolves to a key exactly when it is a number or a decimal numeral |
| OrderValidation.Lookup | proyecto2425/DeliverUS-Backend/src/controllers/validation/OrderValidation.js:16-18 | the product row with the resolved key, or null |
| OrderValidation.TextIdFindsSameRow | proyecto2425/DeliverUS-Backend/src/controllers/validation/OrderValidation.js:16-18 | an id sent as the decimal text of n resolves to n and finds the same row as the number n |
| OrderValidation.CreateEntryError | proyecto2425/DeliverUS-Backend/src/controllers/validation/OrderValidation.js:18-24 | an entry throws nothing iff its product exists, is available and belongs to the body's restaurant; a missing product gives "Product does not exist", an unavailable one "Product is not available", one of another restaurant "This product is not offered at this restaurant" |
| OrderValidation.StockError | proyecto2425/DeliverUS-Backend/src/controllers/validation/OrderValidation.js:44-48 | an entry throws nothing iff its product exists and is available; a missing product gives "Product does not exist" and an unavailable one "Product is not available" |
| OrderValidation.CheckCreateProducts | proyecto2425/DeliverUS-Backend/src/controllers/validation/OrderValidation.js:14-26 | the validator passes iff every entry's product exists, is available and is offered by the body's restaurant; otherwise the error is the first failing entry's |
| OrderValidation.CheckUpdateProducts | proyecto2425/DeliverUS-Backend/src/controllers/validation/OrderValidation.js:39-54 | the validator passes iff every product exists and is available and they come from at most one restaurant; otherwise the first stock error or the mixed-restaurant error |
| OrderValidation.ValidateCreate | proyecto2425/DeliverUS-Backend/src/controllers/validation/OrderValidation.js:9-27 | create's chain reports nothing iff the body is accepted; the field errors come first, in chain order, then at most one product error; there is one iff some entry is not offered, and it carries the error of the first entry that is not |
| OrderValidation.ValidateUpdate | proyecto2425/DeliverUS-Backend/src/controllers/validation/OrderValidation.js:34-55 | update's chain reports nothing iff restaurantId is absent, the shared rules pass, and the products are in stock from at most one restaurant; the field errors come first, then at most one product error, present iff the products are not all in stock from one restaurant, and it is the first entry's stock error or the mixed-restaurant error |
| OrderValidation.UpdateAcceptsAnyOneRestaurant | proyecto2425/DeliverUS-Backend/src/controllers/validation/OrderValidation.js:28-54 | update accepts products of a restaurant other than the edited order's, because the chain never sees that order |
| OrderRoutes.RunChain | Backend/ExamenJunio2024_Turno1/DeliverUS-Backend/src/routes/OrderRoutes.js:8-15 | a request reaches the handler iff every guard passes; otherwise the first failing guard answers it |
| OrderRoutes.Dispatch | Backend/ExamenJunio2024_Turno1/DeliverUS-Backend/src/routes/OrderRoutes.js:7-57 | no handler iff no registration matches the verb and path; otherwise the first match runs its chain |
| OrderRoutes.DispatchFirst | Backend/ExamenJunio2024_Turno1/DeliverUS-Backend/src/routes/OrderRoutes.js:41-56 | the first matching registration is the one that handles the request |
| OrderRoutes.OwnerChainPasses | Backend/ExamenJunio2024_Turno1/DeliverUS-Backend/src/routes/OrderRoutes.js:10-13 | an owner chain passes iff logged in, owner role, order exists, ownership, and its last guard all pass |
| OrderRoutes.ConfirmChain | Backend/ExamenJunio2024_Turno1/DeliverUS-Backend/src/routes/OrderRoutes.js:8-15 | confirm is reached iff the four owner checks and checkOrderIsPending pass |
| OrderRoutes.SendChain | Backend/ExamenJunio2024_Turno1/DeliverUS-Backend/src/routes/OrderRoutes.js:17-24 | send is reached iff the four owner checks and checkOrderCanBeSent pass |
| OrderRoutes.DeliverChain | Backend/ExamenJunio2024_Turno1/DeliverUS-Backend/src/routes/OrderRoutes.js:26-33 | deliver is reached iff the four owner checks and checkOrderCanBeDelivered pass |
| OrderRoutes.BackwardChain | Backend/ExamenJunio2024_Turno1/DeliverUS-Backend/src/routes/OrderRoutes.js:41-56 | both backward registrations are identical, and backward is reached iff the four owner checks and checkOrderCanBeBackwarded pass |
| OrderRoutes.ShowChain | Backend/ExamenJunio2024_Turno1/DeliverUS-Backend/src/routes/OrderRoutes.js:35-40 | show is reached iff login, existence and visibility pass; neither the owner role nor ownership is in its chain |
| OrderRoutes.ShowIgnoresOwnership | Backend/ExamenJunio2024_Turno1/DeliverUS-Backend/src/routes/OrderRoutes.js:35-40 | the outcome of show depends only on its three guards, whatever the role and ownership checks would say |
| OrderRoutes.RunChainAgrees | Backend/ExamenJunio2024_Turno1/DeliverUS-Backend/src/routes/OrderRoutes.js:35-40 | a chain's outcome depends only on the guards it lists |
| OrderRoutes.GuardedTransitionsAdvance | Backend/ExamenJunio2024_Turno1/DeliverUS-Backend/src/routes/OrderRoutes.js:8-33 | if the state guards test what their names say, a reached confirm, send or deliver moves the order one status on and keeps it well formed |
| ProductMiddleware.CheckProductOwnership | Backend/ExamenJunio2024_Turno2/DeliverUS-Backend/src/middlewares/ProductMiddleware.js:2-13 | next iff the user id equals the product's restaurant owner; 403 iff both are known and differ; 500 when the product or its restaurant is null |
| ProductMiddleware.CheckProductRestaurantOwnership | Backend/ExamenJunio2024_Turno2/DeliverUS-Backend/src/middlewares/ProductMiddleware.js:14-25 | next iff the user owns the restaurant named in the body; 403 iff it belongs to someone else; 500 iff that restaurant is null |
| ProductMiddleware.OwnershipChecksAgree | Backend/ExamenJunio2024_Turno2/DeliverUS-Backend/src/middlewares/ProductMiddleware.js:2-25 | the two ownership checks answer alike when they look at the same restaurant |
| ProductMiddleware.CheckProductHasNotBeenOrdered | Backend/ExamenJunio2024_Turno2/DeliverUS-Backend/src/middlewares/ProductMiddleware.js:27-38 | next iff the product's order list is empty, 409 iff it is not, 500 with the error message when the product is null |
| ProductMiddleware.CheckVisibleAndAvailability | Backend/ExamenJunio2024_Turno2/DeliverUS-Backend/src/middlewares/ProductMiddleware.js:40-51 | 422 iff visibleUntil and availability are both explicitly null; next otherwise; 500 without a body |
| ProductMiddleware.MissingKeysAreNotNull | Backend/ExamenJunio2024_Turno2/DeliverUS-Backend/src/middlewares/ProductMiddleware.js:43 | a body that leaves out either key passes, because the comparison is strict |
| ProductValidation.ParseFloat | Anexo-OtrosExamenes/examenProductoSaludable/ProductValidation.js:20 | `parseFloat` gives a number exactly for numeric values and NaN otherwise |
| ProductValidation.NoMoreThan1000Calories | Anexo-OtrosExamenes/examenProductoSaludable/ProductValidation.js:19-25 | the energy rule: refused only when all three values are numbers and 9·fats + 4·proteins + 4·carbs exceeds 1000 |
| ProductValidation.Check100Grams | Anexo-OtrosExamenes/examenProductoSaludable/ProductValidation.js:28-34 | the gram rule: accepted only when all three values are numbers summing to exactly 100 |
| ProductValidation.GramsFixCalories | Anexo-OtrosExamenes/examenProductoSaludable/ProductValidation.js:19-34 | once the grams add up to 100, the calorie rule passes iff fats are at most 120 |
| ProductValidation.NegativeGramsAccepted | Anexo-OtrosExamenes/examenProductoSaludable/ProductValidation.js:19-34 | fats -10, proteins 100, carbs 10 pass both nutrition rules: no sign is checked |
| ProductValidation.MissingNutrient | Anexo-OtrosExamenes/examenProductoSaludable/ProductValidation.js:19-34 | a missing fats value fails the gram rule (NaN is not 100) and passes the calorie rule (NaN is not above 1000) |
| ProductValidation.CaloriesBoundary | Anexo-OtrosExamenes/examenProductoSaludable/ProductValidation.js:19-25 | exactly 1000 kcal passes and 1005 kcal fails |
| ProductValidation.RestaurantExists | Anexo-OtrosExamenes/examenProductoSaludable/ProductValidation.js:7-16 | `checkRestaurantExists` passes iff the restaurantId names a restaurant row |
| ProductValidation.CreateChain | Anexo-OtrosExamenes/examenProductoSaludable/ProductValidation.js:36-57 | create's rules in their order: the six field rules, restaurantId and its existence, the two image rules, then the gram and energy rules |
| ProductValidation.UpdateChain | Anexo-OtrosExamenes/examenProductoSaludable/ProductValidation.js:59-74 | update's rules in their order: the six field rules, restaurantId forbidden, the two image rules, restaurantId forbidden again |
| ProductValidation.FailingNone | Anexo-OtrosExamenes/examenProductoSaludable/ProductValidation.js:36-57 | a chain reports no error iff every one of its rules passes |
| ProductValidation.FailingCount | Anexo-OtrosExamenes/examenProductoSaludable/ProductValidation.js:59-74 | a failing rule is reported as many times as the chain lists it, and a passing rule never |
| ProductValidation.CreateAcceptedMeaning | Anexo-OtrosExamenes/examenProductoSaludable/ProductValidation.js:36-57 | create accepts iff name is a 1..255-character string, description is falsy or a string, price is a number ≥ 0, order is skipped or an integer, availability is absent or boolean-like, both ids are integers ≥ 1, the restaurant exists, the image checks pass, and both nutrition rules pass |
| ProductValidation.UpdateIgnoresNutrition | Anexo-OtrosExamenes/examenProductoSaludable/ProductValidation.js:59-74 | update's errors do not depend on fats, proteins or carbs |
| ProductValidation.UnusedFieldsIgnored | Anexo-OtrosExamenes/examenProductoSaludable/ProductValidation.js:59-74 | two bodies on which every rule of a chain agrees get the same errors |
| ProductValidation.FailingAppend | Anexo-OtrosExamenes/examenProductoSaludable/ProductValidation.js:59-74 | the errors of a chain split in two are those of the first part followed by those of the second |
| ProductValidation.UpdateErrorsSplit | Anexo-OtrosExamenes/examenProductoSaludable/ProductValidation.js:59-74 | with a restaurantId sent, update reports the field errors, restaurantId, the image errors and restaurantId again, in that order |
| ProductValidation.ReportedAtTwoPlaces | Anexo-OtrosExamenes/examenProductoSaludable/ProductValidation.js:66-73 | a rule listed twice, with no other occurrence in the failing parts, appears at two positions and exactly twice |
| ProductValidation.RestaurantIdReportedTwice | Anexo-OtrosExamenes/examenProductoSaludable/ProductValidation.js:66-73 | sending a restaurantId to update is reported at two positions, exactly twice |
| ProductValidation.BlankNameAccepted | Anexo-OtrosExamenes/examenProductoSaludable/ProductValidation.js:37 | a name of blanks passes create's name rule and is trimmed to the empty string |
| Cart.FindItem | FrontEnd/screens/restaurants/RestaurantDetailScreen.js:38 | `find` gives the first index with the id, or none iff no entry has it |
| Cart.AddToQuantity | FrontEnd/screens/restaurants/RestaurantDetailScreen.js:40-42 | `map` changes by delta the quantity of entries with the id, and leaves every other entry and the order of entries alone |
| Cart.RemoveId | FrontEnd/screens/restaurants/RestaurantDetailScreen.js:58 | `filter` keeps no entry with the id and never grows the cart |
| Cart.Increment | FrontEnd/screens/restaurants/RestaurantDetailScreen.js:36-47 | increment grows the cart by one entry exactly when the product is not in it yet |
| Cart.Decrement | FrontEnd/screens/restaurants/RestaurantDetailScreen.js:49-63 | decrement never grows the cart and leaves it unchanged when the product is not in it |
| Cart.RemoveAbsentId | FrontEnd/screens/restaurants/RestaurantDetailScreen.js:58 | filtering out an id no entry has leaves the cart unchanged |
| Cart.RemoveAt | FrontEnd/screens/restaurants/RestaurantDetailScreen.js:58 | with unique ids, filtering out an entry's id removes exactly that entry |
| Cart.IncrementEffect | FrontEnd/screens/restaurants/RestaurantDetailScreen.js:36-47 | increment raises only the found entry's quantity by one, or appends the product with quantity 1 |
| Cart.DecrementEffect | FrontEnd/screens/restaurants/RestaurantDetailScreen.js:49-63 | decrement lowers a quantity above 1 by one, removes an entry at 1, and leaves the cart alone when the product is absent |
| Cart.IncrementKeepsInvariant | FrontEnd/screens/restaurants/RestaurantDetailScreen.js:36-47 | increment keeps ids unique and quantities at least 1 |
| Cart.DecrementKeepsInvariant | FrontEnd/screens/restaurants/RestaurantDetailScreen.js:49-63 | decrement keeps ids unique and quantities at least 1 |
| Cart.UndoIncrementPresent | FrontEnd/screens/restaurants/RestaurantDetailScreen.js:36-63 | decrementing after incrementing a product already in the cart restores the cart |
| Cart.UndoIncrementAbsent | FrontEnd/screens/restaurants/RestaurantDetailScreen.js:36-63 | decrementing after incrementing a new product restores the cart |
| Cart.DecrementUndoesIncrement | FrontEnd/screens/restaurants/RestaurantDetailScreen.js:36-63 | on a valid cart, decrement undoes increment of the same product |
| Cart.CancelOrder | FrontEnd/screens/restaurants/RestaurantDetailScreen.js:103-106 | cancel does nothing on an empty cart and otherwise empties it |
| Cart.PayloadLines | FrontEnd/screens/restaurants/RestaurantDetailScreen.js:79-83 | the payload has one line per cart entry, in order, with its id, quantity and price |
| Cart.ConfirmOrder | FrontEnd/screens/restaurants/RestaurantDetailScreen.js:65-100 | an empty cart does nothing; a missing user or address only shows the message; otherwise the payload is posted and the cart is emptied iff the post succeeds |
| OrderFlow.PayloadRequest | FrontEnd/screens/restaurants/RestaurantDetailScreen.js:76-84 | the posted body, read by the validator, is an array with one entry per payload line, carrying its product id and quantity |
| OrderFlow.Entries | FrontEnd/screens/restaurants/RestaurantDetailScreen.js:79-83 | the payload lines become request entries one for one |
| OrderFlow.ConfirmedCartPassesFieldRules | proyecto2425/DeliverUS-Backend/src/controllers/validation/OrderValidation.js:10-13 | a post from a valid non-empty cart with a fetched restaurant and an address of at most 255 characters passes every field rule of create |
| OrderFlow.LineRequests | Backend/proyecto2425/DeliverUS-Backend/src/controllers/OrderController.js:129 | the validated entries as the controller reads them, one for one: resolved product key, quantity, and whether the id was a number |
| OrderFlow.AcceptedCreateSucceeds | Backend/proyecto2425/DeliverUS-Backend/src/controllers/OrderController.js:128-170 | when every product's restaurant exists, a body create's chain accepted has resolvable ids naming existing products and an existing restaurant, and with numeric ids it is strictly matched too, so create cannot fail |
| OrderFlow.TextIdAcceptedButUnmatched | Backend/proyecto2425/DeliverUS-Backend/src/controllers/OrderController.js:165-170 | an available product named by its id as decimal text passes create's chain yet is matched by no entry, so create fails |
| OrderFlow.RepeatedProductChargedTwiceStoredOnce | Backend/proyecto2425/DeliverUS-Backend/src/controllers/OrderController.js:128-170 | a product listed twice is charged for both entries but stored as one line with the first entry's quantity |

## Left out

- Database access (Sequelize `findByPk`, `findAll`, `addProduct`, `setProducts`, transactions, cascade deletes) is a map-based store that commits all of an operation or none of it; SQL, locking and concurrency between requests are not modelled.
- OrderStore.Store.Create: `Order.create` can also fail on a database constraint (e.g. a foreign key for an unknown restaurant when shipping is free); the store has no constraints, so such a create succeeds in the model.
- OrderStore.Store.Create: the `...req.body` spread is modelled only for the `price` and `shippingCosts` keys; other body keys that are also order columns (userId, createdAt, startedAt, sentAt, deliveredAt, id) are not modelled.
- OrderStore.Store.Update: the `...req.body` spread is modelled only for the `address`, `price` and `shippingCosts` keys; other order columns the body may carry (userId, createdAt, the three lifecycle timestamps, id) would also be written, and the model leaves them unchanged.
- OrderStore.Store.Deliver: `restaurant.getAverageServiceTime()` is not part of this model; its result is a parameter.
- The order listing and customer index queries (`indexRestaurant`, `indexCustomer`) and `show` are not modelled beyond the where clauses, because they only read rows and send them back.
- The `backward` controller and the bodies of the order middlewares (`checkOrderOwnership`, `checkOrderIsPending`, and so on) are not part of this model; guards are abstract predicates, and only their placement in the chains is modelled.
- OrderStatus.GenerateFilterWhereClauses: `moment` date parsing is not modelled; `from` and `to` arrive as the millisecond timestamps of the start of their day, and a date string that fails to parse is not modelled.
- Analytics.InvoicedToday: days are 86 400 000 ms long; daylight-saving shifts and the time zone of `moment()` are not modelled.
- Money is integer cents and nutrition values are exact reals; IEEE-754 rounding is not modelled, so `33.3 + 33.3 + 33.4 !== 100` and similar rounding effects are outside the model.
- BodyValue.IsIntAtLeast: numeric text such as `"5"` is treated as not an integer, although the validator library would accept it; the same holds for `IsFloatAtLeast` and for `parseFloat` of text.
- OrderValidation.Lookup: `KeyOf` resolves a number and a non-empty run of ASCII digits; other texts the database would coerce (a sign, spaces, a decimal point, trailing letters), booleans and non-integral numbers find no row in the model, so CheckCreateProducts, CheckUpdateProducts, ValidateCreate and ValidateUpdate report "Product does not exist" for them.
- OrderValidation.Entries: for a `products` value that is not an array, the `toArray` sanitizer wraps it into a one-element array that the custom validator then visits; the chain has already failed on `isArray`, and the extra product error is not modelled.
- ProductValidation.ParseFloat: `parseFloat` of text (which reads a leading number) is not modelled; text gives NaN.
- ProductValidation.Holds: the image checks are booleans in an `Upload` value, because their helpers (`checkFileIsImage`, `checkFileMaxSize`) are not part of this model.
- Each `check(...)` line of a chain is one rule that passes or fails; how many messages the validator library emits for one failing line, and the sanitizers (`toInt`, `toFloat`, `toBoolean`, `toArray`), are not modelled except for `trim`.
- BodyValue.Trim: whitespace is the ASCII set (space, tab, line feed, carriage return, vertical tab, form feed); Unicode spaces are not modelled.
- ProductMiddleware.CheckProductOwnership: the body of the 500 response is the thrown error object; its text is not modelled.
- ProductMiddleware.CheckProductRestaurantOwnership: the same holds for its 500 response; the thrown error's text is not modelled.
- The HTTP client wrappers, screens other than the restaurant detail screen, and all rendering, navigation and flash messages are not modelled.
- PerformancesValidation, PerformancesController, the review and category files, and the schema files are not part of this model; they are outside the order and product core.
