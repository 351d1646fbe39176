/**
 * The order controller's write paths over a map-based store: create and
 * update (priced, staged and committed as one transaction), destroy, and the
 * three lifecycle timestamps.
 */
module OrderStore {
  import opened Wrappers
  import opened Entities
  import opened Pricing

  /** Why a controller call answered HTTP 500 (the controller answers every thrown error with 500). */
  datatype Cause =
    | ProductNotFound(productId: int)
    | RestaurantNotFound(restaurantId: int)
    | OrderNotFound(orderId: int)
    | NoProducts
    | UnmatchedEntry(productId: int)

  /** The status code every failure of these handlers is answered with. */
  const InternalErrorStatus: int := 500

  /**
   * A create request body after validation. `price` and `shippingCosts` are
   * present only when the body itself carries those keys; the body is spread
   * last into the new row, so such keys replace the computed values.
   */
  datatype CreateBody = CreateBody(
    restaurantId: int,
    address: string,
    products: seq<LineRequest>,
    price: Option<int>,
    shippingCosts: Option<int>)

  /** An update request body after validation (it carries no restaurantId). */
  datatype UpdateBody = UpdateBody(
    address: string,
    products: seq<LineRequest>,
    price: Option<int>,
    shippingCosts: Option<int>)

  /** The products looked up for a request, in request order, and the accumulated subtotal. */
  datatype Priced = Priced(found: seq<Product>, subtotal: int)

  /** The ids a request names: the products the lookup loop fetches. */
  function RequestedIds(reqs: seq<LineRequest>): set<int> {
    set i | 0 <= i < |reqs| :: reqs[i].productId
  }

  /** `p.productId === product.id`: only an id sent as a number equals the row's numeric id. */
  predicate Matches(l: LineRequest, pid: int) {
    l.sentAsNumber && l.productId == pid
  }

  /** The ids the controller's strict `find` can match. */
  function NumberIds(reqs: seq<LineRequest>): set<int> {
    set i | 0 <= i < |reqs| && reqs[i].sentAsNumber :: reqs[i].productId
  }

  /** Every fetched product has an entry that names it by number, so no `find` comes back undefined. */
  predicate StrictlyMatched(reqs: seq<LineRequest>) {
    RequestedIds(reqs) <= NumberIds(reqs)
  }

  /** Extending a request prefix by one entry adds that entry's id. */
  lemma RequestedIdsPush(reqs: seq<LineRequest>, i: int)
    requires 0 <= i < |reqs|
    ensures RequestedIds(reqs[..i + 1]) == RequestedIds(reqs[..i]) + {reqs[i].productId}
  {
    assert forall j :: 0 <= j < i ==> reqs[..i + 1][j] == reqs[..i][j];
    assert reqs[..i + 1][i] == reqs[i];
  }

  /** A request is strictly matched once each of its entries' ids is named by number somewhere. */
  lemma EveryIdNumbered(reqs: seq<LineRequest>)
    requires forall j :: 0 <= j < |reqs| ==> reqs[j].productId in NumberIds(reqs)
    ensures StrictlyMatched(reqs)
  {
    forall x | x in RequestedIds(reqs) ensures x in NumberIds(reqs) {
      var i :| 0 <= i < |reqs| && reqs[i].productId == x;
    }
  }

  /** Every request whose ids were all sent as numbers is strictly matched. */
  lemma NumberIdsMatch(reqs: seq<LineRequest>)
    requires forall i :: 0 <= i < |reqs| ==> reqs[i].sentAsNumber
    ensures StrictlyMatched(reqs)
  {
    forall x | x in RequestedIds(reqs) ensures x in NumberIds(reqs) {
      var i :| 0 <= i < |reqs| && reqs[i].productId == x;
      assert reqs[i].sentAsNumber;
    }
  }

  /** The first entry that strictly matches product `pid` (`products.find(...)`). */
  function FindEntry(reqs: seq<LineRequest>, pid: int): (r: Option<LineRequest>)
    ensures r.None? <==> pid !in NumberIds(reqs)
    ensures r.Some? ==> exists k :: 0 <= k < |reqs| && reqs[k] == r.value && Matches(r.value, pid) &&
                                   forall j :: 0 <= j < k ==> !Matches(reqs[j], pid)
  {
    if |reqs| == 0 then None
    else if Matches(reqs[0], pid) then Some(reqs[0])
    else
      var rest := FindEntry(reqs[1..], pid);
      assert pid in NumberIds(reqs) <==> pid in NumberIds(reqs[1..]) by {
        if pid in NumberIds(reqs) {
          var i :| 0 <= i < |reqs| && reqs[i].sentAsNumber && reqs[i].productId == pid;
          assert i > 0 && reqs[1..][i - 1] == reqs[i];
        }
        if pid in NumberIds(reqs[1..]) {
          var i :| 0 <= i < |reqs[1..]| && reqs[1..][i].sentAsNumber && reqs[1..][i].productId == pid;
          assert reqs[i + 1] == reqs[1..][i];
        }
      }
      if rest.Some? then
        assert exists k :: 0 <= k < |reqs| && reqs[k] == rest.value && Matches(rest.value, pid) &&
                           forall j :: 0 <= j < k ==> !Matches(reqs[j], pid) by {
          var k :| 0 <= k < |reqs[1..]| && reqs[1..][k] == rest.value && Matches(rest.value, pid) &&
                   forall j :: 0 <= j < k ==> !Matches(reqs[1..][j], pid);
          assert reqs[k + 1] == rest.value;
          forall j | 0 <= j < k + 1 ensures !Matches(reqs[j], pid) {
            if j > 0 { assert reqs[j] == reqs[1..][j - 1]; }
          }
        }
        rest
      else rest
  }

  /** The association row the controller writes for product `p`: the matched entry's quantity, the current price. */
  function LineFor(reqs: seq<LineRequest>, p: Product): (l: OrderLine)
    requires p.id in NumberIds(reqs)
    ensures l.unityPrice == p.price
    ensures exists k :: 0 <= k < |reqs| && Matches(reqs[k], p.id) && l.quantity == reqs[k].quantity &&
                        forall j :: 0 <= j < k ==> !Matches(reqs[j], p.id)
  {
    OrderLine(FindEntry(reqs, p.id).value.quantity, p.price)
  }

  /**
   * The line set an order holds after create or update: one row per distinct
   * requested product (a repeated product is added once), priced at its
   * current price.
   */
  function LinesFor(reqs: seq<LineRequest>, catalogue: map<int, Product>): map<int, OrderLine>
    requires AllKnown(reqs, catalogue) && StrictlyMatched(reqs)
    requires forall pid :: pid in catalogue ==> catalogue[pid].id == pid
  {
    map pid | pid in RequestedIds(reqs) :: LineFor(reqs, catalogue[pid])
  }

  /**
   * An order's lines: exactly one per requested product, each at the
   * product's current price with the quantity of the first entry that names
   * the product by number.
   */
  lemma LinesForShape(reqs: seq<LineRequest>, catalogue: map<int, Product>)
    requires AllKnown(reqs, catalogue) && StrictlyMatched(reqs)
    requires forall pid :: pid in catalogue ==> catalogue[pid].id == pid
    ensures LinesFor(reqs, catalogue).Keys == RequestedIds(reqs)
    ensures forall pid :: pid in RequestedIds(reqs) ==>
              && LinesFor(reqs, catalogue)[pid].unityPrice == catalogue[pid].price
              && exists k :: 0 <= k < |reqs| && Matches(reqs[k], pid) &&
                             LinesFor(reqs, catalogue)[pid].quantity == reqs[k].quantity &&
                             forall j :: 0 <= j < k ==> !Matches(reqs[j], pid)
  {
    forall pid | pid in RequestedIds(reqs)
      ensures exists k :: 0 <= k < |reqs| && Matches(reqs[k], pid) &&
                          LinesFor(reqs, catalogue)[pid].quantity == reqs[k].quantity &&
                          forall j :: 0 <= j < k ==> !Matches(reqs[j], pid)
    {
      var l := LineFor(reqs, catalogue[pid]);
      assert LinesFor(reqs, catalogue)[pid] == l;
    }
  }

  /**
   * The `addProduct` loop after `i` entries: each of them was matched by
   * number, and the staged lines are those of the products fetched so far.
   */
  ghost predicate StagedPrefix(reqs: seq<LineRequest>, catalogue: map<int, Product>, staged: map<int, OrderLine>, i: int)
    requires 0 <= i <= |reqs|
  {
    && (forall j :: 0 <= j < i ==> reqs[j].productId in NumberIds(reqs))
    && staged.Keys == RequestedIds(reqs[..i])
    && (forall pid :: pid in staged ==>
          pid in catalogue && catalogue[pid].id == pid && pid in NumberIds(reqs) &&
          staged[pid] == LineFor(reqs, catalogue[pid]))
  }

  /** One more matched entry extends the staged prefix by its product's line. */
  lemma StagePush(reqs: seq<LineRequest>, catalogue: map<int, Product>, staged: map<int, OrderLine>, i: int)
    requires 0 <= i < |reqs| && StagedPrefix(reqs, catalogue, staged, i)
    requires reqs[i].productId in catalogue && catalogue[reqs[i].productId].id == reqs[i].productId
    requires reqs[i].productId in NumberIds(reqs)
    ensures StagedPrefix(reqs, catalogue, staged[reqs[i].productId := LineFor(reqs, catalogue[reqs[i].productId])], i + 1)
  {
    var pid := reqs[i].productId;
    var staged' := staged[pid := LineFor(reqs, catalogue[pid])];
    RequestedIdsPush(reqs, i);
    assert staged'.Keys == staged.Keys + {pid};
    forall q | q in staged'
      ensures q in catalogue && catalogue[q].id == q && q in NumberIds(reqs) && staged'[q] == LineFor(reqs, catalogue[q])
    {
      if q != pid { assert q in staged; }
    }
  }

  /** A completed staging means every product was matched and the lines are the ones `LinesFor` describes. */
  lemma StagedComplete(reqs: seq<LineRequest>, catalogue: map<int, Product>, staged: map<int, OrderLine>)
    requires AllKnown(reqs, catalogue)
    requires forall pid :: pid in catalogue ==> catalogue[pid].id == pid
    requires StagedPrefix(reqs, catalogue, staged, |reqs|)
    ensures StrictlyMatched(reqs) && staged == LinesFor(reqs, catalogue)
  {
    assert reqs[..|reqs|] == reqs;
    EveryIdNumbered(reqs);
  }

  /** The in-memory tables the controller works on. */
  class Store {
    var products: map<int, Product>
    var restaurants: map<int, Restaurant>
    var orders: map<int, Order>
    var lines: map<int, map<int, OrderLine>>
    var nextOrderId: int

    /** Rows are keyed by their own id, every order has a line set, and new ids are unused. */
    ghost predicate Valid()
      reads this
    {
      && (forall pid :: pid in products ==> products[pid].id == pid)
      && (forall rid :: rid in restaurants ==> restaurants[rid].id == rid)
      && (forall oid :: oid in orders ==> orders[oid].id == oid && oid < nextOrderId)
      && orders.Keys == lines.Keys
    }

    /** The flat shipping cost of a restaurant, 0 when the restaurant is unknown. */
    ghost function FlatOf(rid: int): int
      reads this
    {
      if rid in restaurants then restaurants[rid].shippingCosts else 0
    }

    constructor (catalogue: map<int, Product>, places: map<int, Restaurant>)
      requires forall pid :: pid in catalogue ==> catalogue[pid].id == pid
      requires forall rid :: rid in places ==> places[rid].id == rid
      ensures Valid()
      ensures products == catalogue && restaurants == places && orders == map[] && lines == map[]
    {
      products, restaurants := catalogue, places;
      orders, lines := map[], map[];
      nextOrderId := 1;
    }

    /**
     * The lookup loop of create and update: fetch each requested product in
     * order and accumulate price times quantity. Fetching an unknown id gives
     * null, and reading its price throws.
     */
    method LookUpProducts(reqs: seq<LineRequest>) returns (r: Result<Priced, Cause>)
      ensures r.Success? <==> AllKnown(reqs, products)
      ensures r.Success? ==> |r.value.found| == |reqs| &&
                             (forall i :: 0 <= i < |reqs| ==> r.value.found[i] == products[reqs[i].productId]) &&
                             r.value.subtotal == Subtotal(reqs, products)
      ensures r.Failure? ==> exists k :: 0 <= k < |reqs| && r.error == ProductNotFound(reqs[k].productId) &&
                                        reqs[k].productId !in products &&
                                        forall j :: 0 <= j < k ==> reqs[j].productId in products
    {
      var found: seq<Product> := [];
      var price := 0;
      var i := 0;
      while i < |reqs|
        invariant 0 <= i <= |reqs|
        invariant forall j :: 0 <= j < i ==> reqs[j].productId in products
        invariant AllKnown(reqs[..i], products)
        invariant |found| == i && forall j :: 0 <= j < i ==> found[j] == products[reqs[j].productId]
        invariant price == Subtotal(reqs[..i], products)
      {
        var pid := reqs[i].productId;
        if pid !in products {
          return Failure(ProductNotFound(pid));
        }
        var product := products[pid];
        found := found + [product];
        price := price + product.price * reqs[i].quantity;
        i := i + 1;
        assert reqs[..i][..i - 1] == reqs[..i - 1];
        assert AllKnown(reqs[..i], products);
      }
      assert reqs[..i] == reqs;
      r := Success(Priced(found, price));
    }

    /**
     * The `addProduct` loop of create and update, staged into a fresh line
     * set: for each fetched product, in request order, find its entry and
     * read the quantity. An unmatched product reads a property of undefined
     * and throws.
     */
    method StageLines(reqs: seq<LineRequest>, found: seq<Product>) returns (r: Result<map<int, OrderLine>, Cause>)
      requires Valid()
      requires AllKnown(reqs, products)
      requires |found| == |reqs| && forall i :: 0 <= i < |reqs| ==> found[i] == products[reqs[i].productId]
      ensures r.Success? <==> StrictlyMatched(reqs)
      ensures r.Success? ==> r.value == LinesFor(reqs, products)
      ensures r.Failure? ==> exists k :: 0 <= k < |reqs| && r.error == UnmatchedEntry(reqs[k].productId) &&
                                        reqs[k].productId !in NumberIds(reqs) &&
                                        forall j :: 0 <= j < k ==> reqs[j].productId in NumberIds(reqs)
    {
      var staged := map[];
      assert reqs[..0] == [];
      for i := 0 to |found|
        invariant StagedPrefix(reqs, products, staged, i)
      {
        var product := found[i];
        assert product.id == reqs[i].productId;
        var entry := FindEntry(reqs, product.id);
        if entry.None? {
          assert reqs[i].productId in RequestedIds(reqs);
          return Failure(UnmatchedEntry(product.id));
        }
        StagePush(reqs, products, staged, i);
        staged := staged[product.id := LineFor(reqs, product)];
      }
      StagedComplete(reqs, products, staged);
      r := Success(staged);
    }

    /**
     * `create`: look up every product, price the order, then write the header
     * and its lines in one transaction. Any thrown error rolls everything back,
     * including the one an entry whose id was sent as text causes.
     */
    method Create(userId: int, body: CreateBody, now: int) returns (r: Result<Order, Cause>)
      requires Valid()
      modifies this
      ensures Valid()
      ensures products == old(products) && restaurants == old(restaurants)
      ensures r.Failure? <==>
                || !AllKnown(body.products, products)
                || (Subtotal(body.products, products) <= FreeShippingThreshold && body.restaurantId !in restaurants)
                || !StrictlyMatched(body.products)
      ensures r.Failure? ==> orders == old(orders) && lines == old(lines) && nextOrderId == old(nextOrderId)
      ensures r.Success? ==>
                var charge := ApplyShipping(Subtotal(body.products, products), FlatOf(body.restaurantId));
                && r.value == Order(old(nextOrderId), userId, body.restaurantId, body.address,
                                    body.price.GetOr(charge.price), body.shippingCosts.GetOr(charge.shippingCosts),
                                    now, None, None, None)
                && orders == old(orders)[r.value.id := r.value]
                && lines == old(lines)[r.value.id := LinesFor(body.products, products)]
                && nextOrderId == old(nextOrderId) + 1
    {
      var looked := LookUpProducts(body.products);
      if looked.Failure? {
        return Failure(looked.error);
      }
      var price := looked.value.subtotal;
      var shippingCosts := 0;
      if price <= FreeShippingThreshold {
        if body.restaurantId !in restaurants {
          return Failure(RestaurantNotFound(body.restaurantId));
        }
        shippingCosts := restaurants[body.restaurantId].shippingCosts;
        price := price + shippingCosts;
      }
      // Inside the transaction: the header, then its lines; committed together.
      var order := Order(nextOrderId, userId, body.restaurantId, body.address,
                         body.price.GetOr(price), body.shippingCosts.GetOr(shippingCosts),
                         now, None, None, None);
      var staged := StageLines(body.products, looked.value.found);
      if staged.Failure? {
        return Failure(staged.error);
      }
      orders := orders[order.id := order];
      lines := lines[order.id := staged.value];
      nextOrderId := nextOrderId + 1;
      r := Success(order);
    }

    /**
     * `update`: price the new entries (shipping from the first product's
     * restaurant), overwrite price, shippingCosts and address, clear the old
     * lines and add the new ones, all in one transaction.
     */
    method Update(orderId: int, body: UpdateBody) returns (r: Result<Order, Cause>)
      requires Valid()
      modifies this
      ensures Valid()
      ensures products == old(products) && restaurants == old(restaurants) && nextOrderId == old(nextOrderId)
      ensures r.Failure? ==> orders == old(orders) && lines == old(lines)
      ensures r.Failure? <==>
                || !AllKnown(body.products, products)
                || (Subtotal(body.products, products) <= FreeShippingThreshold &&
                    (body.products == [] || products[body.products[0].productId].restaurantId !in restaurants))
                || orderId !in orders
                || !StrictlyMatched(body.products)
      ensures r.Success? ==>
                var sub := Subtotal(body.products, products);
                var flat := if sub <= FreeShippingThreshold then FlatOf(products[body.products[0].productId].restaurantId) else 0;
                var charge := ApplyShipping(sub, flat);
                && orderId in old(orders)
                && r.value == old(orders)[orderId].(address := body.address,
                                                    price := body.price.GetOr(charge.price),
                                                    shippingCosts := body.shippingCosts.GetOr(charge.shippingCosts))
                && orders == old(orders)[orderId := r.value]
                && lines == old(lines)[orderId := LinesFor(body.products, products)]
    {
      var looked := LookUpProducts(body.products);
      if looked.Failure? {
        return Failure(looked.error);
      }
      var found := looked.value.found;
      var price := looked.value.subtotal;
      var shippingCosts := 0;
      if price <= FreeShippingThreshold {
        if |found| == 0 {
          return Failure(NoProducts);
        }
        var rid := found[0].restaurantId;
        if rid !in restaurants {
          return Failure(RestaurantNotFound(rid));
        }
        shippingCosts := restaurants[rid].shippingCosts;
        price := price + shippingCosts;
      }
      // `Order.update` on a missing id changes no row; the following lookup returns null and throws.
      if orderId !in orders {
        return Failure(OrderNotFound(orderId));
      }
      var order := orders[orderId].(address := body.address,
                                    price := body.price.GetOr(price),
                                    shippingCosts := body.shippingCosts.GetOr(shippingCosts));
      var staged := StageLines(body.products, found);
      if staged.Failure? {
        return Failure(staged.error);
      }
      orders := orders[orderId := order];
      lines := lines[orderId := staged.value];
      r := Success(order);
    }

    /**
     * `destroy`: delete the order (its lines go with it) and answer with a
     * message. The success message appends the request's `restaurantId`
     * path parameter, which is "undefined" when the route has none.
     */
    method Destroy(orderId: int, restaurantIdParam: Option<string>) returns (message: string)
      requires Valid()
      modifies this
      ensures Valid()
      ensures products == old(products) && restaurants == old(restaurants) && nextOrderId == old(nextOrderId)
      ensures orders == old(orders) - {orderId} && lines == old(lines) - {orderId}
      ensures message == if orderId in old(orders)
                         then "Sucessfuly deleted order id." + restaurantIdParam.GetOr("undefined")
                         else "Could not delete order."
    {
      var deleted := if orderId in orders then 1 else 0;
      orders := orders - {orderId};
      lines := lines - {orderId};
      if deleted == 1 {
        message := "Sucessfuly deleted order id." + restaurantIdParam.GetOr("undefined");
      } else {
        message := "Could not delete order.";
      }
    }

    /** `confirm`: set startedAt to now, with no check of the current state. */
    method Confirm(orderId: int, now: int) returns (r: Result<Order, Cause>)
      requires Valid()
      modifies this
      ensures Valid()
      ensures products == old(products) && restaurants == old(restaurants) && lines == old(lines)
      ensures nextOrderId == old(nextOrderId)
      ensures r.Failure? <==> orderId !in old(orders)
      ensures r.Failure? ==> orders == old(orders) && r.error == OrderNotFound(orderId)
      ensures r.Success? ==> r.value == old(orders)[orderId].(startedAt := Some(now)) &&
                             orders == old(orders)[orderId := r.value]
    {
      if orderId !in orders {
        return Failure(OrderNotFound(orderId));
      }
      var order := orders[orderId].(startedAt := Some(now));
      orders := orders[orderId := order];
      r := Success(order);
    }

    /** `send`: set sentAt to now, with no check of the current state. */
    method Send(orderId: int, now: int) returns (r: Result<Order, Cause>)
      requires Valid()
      modifies this
      ensures Valid()
      ensures products == old(products) && restaurants == old(restaurants) && lines == old(lines)
      ensures nextOrderId == old(nextOrderId)
      ensures r.Failure? <==> orderId !in old(orders)
      ensures r.Failure? ==> orders == old(orders) && r.error == OrderNotFound(orderId)
      ensures r.Success? ==> r.value == old(orders)[orderId].(sentAt := Some(now)) &&
                             orders == old(orders)[orderId := r.value]
    {
      if orderId !in orders {
        return Failure(OrderNotFound(orderId));
      }
      var order := orders[orderId].(sentAt := Some(now));
      orders := orders[orderId := order];
      r := Success(order);
    }

    /**
     * `deliver`: set deliveredAt to now and save, then store the restaurant's
     * recomputed average service time (`averageServiceTime`, the value its
     * model method returns). The save is not undone when the restaurant lookup
     * fails afterwards: the caller gets 500 but the order stays delivered.
     */
    method Deliver(orderId: int, now: int, averageServiceTime: Option<int>) returns (r: Result<Order, Cause>)
      requires Valid()
      modifies this
      ensures Valid()
      ensures products == old(products) && lines == old(lines) && nextOrderId == old(nextOrderId)
      ensures orderId !in old(orders) ==>
                r == Failure(OrderNotFound(orderId)) && orders == old(orders) && restaurants == old(restaurants)
      ensures orderId in old(orders) ==>
                var delivered := old(orders)[orderId].(deliveredAt := Some(now));
                var rid := delivered.restaurantId;
                && orders == old(orders)[orderId := delivered]
                && (rid in old(restaurants) ==>
                      r == Success(delivered) &&
                      restaurants == old(restaurants)[rid := old(restaurants)[rid].(averageServiceMinutes := averageServiceTime)])
                && (rid !in old(restaurants) ==>
                      r == Failure(RestaurantNotFound(rid)) && restaurants == old(restaurants))
    {
      if orderId !in orders {
        return Failure(OrderNotFound(orderId));
      }
      var order := orders[orderId].(deliveredAt := Some(now));
      orders := orders[orderId := order];
      var rid := order.restaurantId;
      if rid !in restaurants {
        return Failure(RestaurantNotFound(rid));
      }
      restaurants := restaurants[rid := restaurants[rid].(averageServiceMinutes := averageServiceTime)];
      r := Success(order);
    }
  }
}
