/**
 * How the pieces meet on the way from the cart to the store: the body the
 * screen posts, what the create chain then lets through, and what the
 * controller does with a body the chain accepted.
 */
module OrderFlow {
  import opened Wrappers
  import opened Entities
  import opened BodyValue
  import opened Pricing
  import Cart
  import OrderValidation
  import OrderStore

  /** The JSON body the screen posts, as the order chains read it; an undefined restaurantId is left out. */
  function PayloadRequest(p: Cart.Payload): (r: OrderValidation.OrderRequest)
    ensures r.products.Array? && |r.products.entries| == |p.products|
    ensures forall i :: 0 <= i < |p.products| ==>
              r.products.entries[i] == OrderValidation.Entry(Int(p.products[i].productId), Int(p.products[i].quantity))
  {
    OrderValidation.OrderRequest(
      if p.restaurantId.Some? then Int(p.restaurantId.value) else Absent,
      OrderValidation.Array(Entries(p.products)),
      Text(p.address))
  }

  function Entries(lines: seq<Cart.PayloadLine>): (r: seq<OrderValidation.Entry>)
    ensures |r| == |lines|
    ensures forall i :: 0 <= i < |lines| ==> r[i] == OrderValidation.Entry(Int(lines[i].productId), Int(lines[i].quantity))
  {
    if |lines| == 0 then []
    else [OrderValidation.Entry(Int(lines[0].productId), Int(lines[0].quantity))] + Entries(lines[1..])
  }

  /**
   * A post from a valid, non-empty cart passes every field rule of create,
   * provided the restaurant was fetched and the saved address fits 255 characters.
   */
  lemma ConfirmedCartPassesFieldRules(cart: seq<Cart.Item>, user: Option<Cart.User>, restaurantId: int, postSucceeds: bool)
    requires Cart.ValidCart(cart) && restaurantId >= 1
    requires Cart.ConfirmOrder(cart, user, Some(restaurantId), postSucceeds).Posted?
    requires |user.value.address.value| <= 255
    ensures OrderValidation.CreateFieldErrors(PayloadRequest(Cart.ConfirmOrder(cart, user, Some(restaurantId), postSucceeds).payload)) == []
  {
    var c := Cart.ConfirmOrder(cart, user, Some(restaurantId), postSucceeds);
    var body := PayloadRequest(c.payload);
    assert |cart| > 0;
    forall i | 0 <= i < |body.products.entries|
      ensures IsIntAtLeast(body.products.entries[i].quantity, 1)
    {
      assert c.payload.products[i].quantity == cart[i].quantity;
    }
    OrderValidation.SharedFieldsMeaning(body);
  }

  /**
   * The validated entries as the controller uses them: the key the lookup
   * resolved, the sanitized quantity, and whether the id was a JSON number.
   */
  function LineRequests(entries: seq<OrderValidation.Entry>): (r: seq<LineRequest>)
    requires forall i :: 0 <= i < |entries| ==>
               OrderValidation.KeyOf(entries[i].productId).Some? && entries[i].quantity.Int?
    ensures |r| == |entries|
    ensures forall i :: 0 <= i < |entries| ==>
              r[i] == LineRequest(OrderValidation.KeyOf(entries[i].productId).value, entries[i].quantity.i,
                                  entries[i].productId.Int?)
  {
    if |entries| == 0 then []
    else
      [LineRequest(OrderValidation.KeyOf(entries[0].productId).value, entries[0].quantity.i, entries[0].productId.Int?)]
      + LineRequests(entries[1..])
  }

  /** Every product row names a restaurant row (the foreign key of the product table). */
  predicate ProductsHaveRestaurants(catalogue: map<int, Product>, restaurants: map<int, Restaurant>) {
    forall pid :: pid in catalogue ==> catalogue[pid].restaurantId in restaurants
  }

  /**
   * What a body create's chain accepted brings to the controller: every id
   * resolves to an existing product, every quantity is a number, and the
   * restaurant exists because the accepted products belong to it and the
   * product list is not empty. When every id was sent as a number the strict
   * `find` matches too, so the controller cannot fail.
   */
  lemma AcceptedCreateSucceeds(body: OrderValidation.OrderRequest, catalogue: map<int, Product>, restaurants: map<int, Restaurant>)
    requires OrderValidation.CreateAccepted(body, catalogue)
    requires ProductsHaveRestaurants(catalogue, restaurants)
    ensures var entries := OrderValidation.Entries(body.products);
            && (forall i :: 0 <= i < |entries| ==>
                  OrderValidation.KeyOf(entries[i].productId).Some? && entries[i].quantity.Int?)
            && AllKnown(LineRequests(entries), catalogue)
            && body.restaurantId.Int? && body.restaurantId.i in restaurants
            && ((forall i :: 0 <= i < |entries| ==> entries[i].productId.Int?) ==>
                  OrderStore.StrictlyMatched(LineRequests(entries)))
  {
    var entries := OrderValidation.Entries(body.products);
    OrderValidation.SharedFieldsMeaning(body);
    assert forall i :: 0 <= i < |entries| ==> OrderValidation.Offered(entries[i], catalogue, body.restaurantId);
    var e0 := entries[0];
    assert OrderValidation.Offered(e0, catalogue, body.restaurantId);
    assert catalogue[OrderValidation.KeyOf(e0.productId).value].restaurantId in restaurants;
    if forall i :: 0 <= i < |entries| ==> entries[i].productId.Int? {
      OrderStore.NumberIdsMatch(LineRequests(entries));
    }
  }

  /**
   * A product id sent as its decimal text passes create's chain, since the
   * lookup finds the row, but the controller's strict `find` then matches no
   * entry: reading the quantity throws and the create answers 500.
   */
  lemma TextIdAcceptedButUnmatched(p: Product)
    requires p.id >= 0 && p.restaurantId >= 1 && p.availability == Some(true)
    ensures var body := OrderValidation.OrderRequest(Int(p.restaurantId),
                                                     OrderValidation.Array([OrderValidation.Entry(Text(Numeral(p.id)), Int(1))]),
                                                     Text("Calle Real 1"));
            && OrderValidation.CreateAccepted(body, map[p.id := p])
            && LineRequests(OrderValidation.Entries(body.products)) == [LineRequest(p.id, 1, false)]
            && !OrderStore.StrictlyMatched(LineRequests(OrderValidation.Entries(body.products)))
  {
    var e := OrderValidation.Entry(Text(Numeral(p.id)), Int(1));
    var body := OrderValidation.OrderRequest(Int(p.restaurantId), OrderValidation.Array([e]), Text("Calle Real 1"));
    OrderValidation.TextIdFindsSameRow(p.id, Int(1), Int(1), map[p.id := p]);
    OrderValidation.SharedFieldsMeaning(body);
    var reqs := LineRequests(OrderValidation.Entries(body.products));
    assert reqs == [LineRequest(p.id, 1, false)];
    assert p.id in OrderStore.RequestedIds(reqs) by { assert reqs[0].productId == p.id; }
    assert p.id !in OrderStore.NumberIds(reqs);
  }

  /**
   * A product listed twice is charged for every entry but stored as one
   * line carrying the first entry's quantity.
   */
  lemma RepeatedProductChargedTwiceStoredOnce(p: Product, first: int, second: int)
    ensures var reqs := [LineRequest(p.id, first, true), LineRequest(p.id, second, true)];
            var catalogue := map[p.id := p];
            && Subtotal(reqs, catalogue) == p.price * first + p.price * second
            && OrderStore.LinesFor(reqs, catalogue) == map[p.id := OrderLine(first, p.price)]
  {
    var reqs := [LineRequest(p.id, first, true), LineRequest(p.id, second, true)];
    var catalogue := map[p.id := p];
    var head := reqs[..1];
    assert head == [LineRequest(p.id, first, true)] && head[..0] == [];
    assert Subtotal(head, catalogue) == p.price * first;
    assert reqs[|reqs| - 1] == LineRequest(p.id, second, true);
    assert reqs[0].productId == p.id;
    assert OrderStore.RequestedIds(reqs) == {p.id};
    OrderStore.NumberIdsMatch(reqs);
    assert OrderStore.FindEntry(reqs, p.id) == Some(LineRequest(p.id, first, true));
  }
}
