/**
 * The validation chains of order create and update: the declarative field
 * rules and the two custom validators that look up every requested product.
 */
module OrderValidation {
  import opened Wrappers
  import opened Entities
  import opened BodyValue

  /** One element of the body's `products` array. */
  datatype Entry = Entry(productId: Value, quantity: Value)

  /** The body's `products` key: missing, something other than an array, or an array. */
  datatype ProductsValue = MissingProducts | NotAnArray | Array(entries: seq<Entry>)

  /** The body fields the order chains look at. */
  datatype OrderRequest = OrderRequest(restaurantId: Value, products: ProductsValue, address: Value)

  /** One reported validation error. */
  datatype Failure =
    | RestaurantIdInvalid
    | RestaurantIdPresent
    | ProductsInvalid
    | QuantityInvalid(index: nat)
    | AddressInvalid
    | ProductsRejected(message: string)

  const ProductMissing: string := "Product does not exist"
  const ProductUnavailable: string := "Product is not available"
  const ProductElsewhere: string := "This product is not offered at this restaurant"
  const MixedRestaurants: string := "The products are not from the same restaurant"

  /**
   * The entries the custom validators visit when `products` is an array. For
   * any other value `isArray` has already failed the chain; the `toArray`
   * sanitizer that wraps such a value into a one-element array, and the
   * extra error the validator then throws for it, are not modelled.
   */
  function Entries(p: ProductsValue): seq<Entry> {
    if p.Array? then p.entries else []
  }

  // -------------------------------------------------------------------
  // Declarative field rules
  // -------------------------------------------------------------------

  /** `products.*.quantity`: one error per entry whose quantity is not an integer >= 1, in array order. */
  function QuantityErrors(entries: seq<Entry>, from: nat): (r: seq<Failure>)
    ensures r == [] <==> forall i :: 0 <= i < |entries| ==> IsIntAtLeast(entries[i].quantity, 1)
    ensures forall f :: f in r ==> f.QuantityInvalid? && from <= f.index < from + |entries|
  {
    if |entries| == 0 then []
    else
      var rest := QuantityErrors(entries[1..], from + 1);
      assert forall i :: 1 <= i < |entries| ==> entries[i] == entries[1..][i - 1];
      (if IsIntAtLeast(entries[0].quantity, 1) then [] else [QuantityInvalid(from)]) + rest
  }

  /** The rules create and update share: products, their quantities, address. */
  function SharedFieldErrors(body: OrderRequest): seq<Failure> {
    (if body.products.Array? && |body.products.entries| >= 1 then [] else [ProductsInvalid])
    + QuantityErrors(Entries(body.products), 0)
    + (if IsStringOfLength(body.address, 1, 255) then [] else [AddressInvalid])
  }

  /** The field rules of create, in chain order. */
  function CreateFieldErrors(body: OrderRequest): seq<Failure> {
    (if IsIntAtLeast(body.restaurantId, 1) then [] else [RestaurantIdInvalid]) + SharedFieldErrors(body)
  }

  /** The field rules of update, in chain order: restaurantId must not be sent at all. */
  function UpdateFieldErrors(body: OrderRequest): seq<Failure> {
    (if Exists(body.restaurantId) then [RestaurantIdPresent] else []) + SharedFieldErrors(body)
  }

  /** Exactly what the shared field rules accept. */
  lemma SharedFieldsMeaning(body: OrderRequest)
    ensures SharedFieldErrors(body) == [] <==>
              && body.products.Array? && |body.products.entries| >= 1
              && (forall i :: 0 <= i < |body.products.entries| ==> IsIntAtLeast(body.products.entries[i].quantity, 1))
              && body.address.Text? && 1 <= |body.address.s| <= 255
  {
  }

  /** An address made of blanks passes the length rule and is stored empty once trimmed. */
  lemma BlankAddressAccepted(body: OrderRequest)
    requires body.address == Text("   ")
    ensures AddressInvalid !in SharedFieldErrors(body)
    ensures Trim(body.address.s) == ""
  {
    var s := body.address.s;
    assert forall k :: 0 <= k < |s| ==> IsSpace(s[k]);
    var tail := QuantityErrors(Entries(body.products), 0);
    assert AddressInvalid !in tail;
  }

  // -------------------------------------------------------------------
  // The custom product validators
  // -------------------------------------------------------------------

  /**
   * The primary key `Product.findByPk` resolves an id to: a number is its
   * own key, and a decimal numeral names the row whose key it spells because
   * the database compares the text with the integer column as a number.
   * Every other value finds no row.
   */
  function KeyOf(id: Value): (k: Option<int>)
    ensures k.Some? <==> id.Int? || (id.Text? && IsDecimal(id.s))
  {
    match id
    case Int(i) => Some(i)
    case Text(s) => if IsDecimal(s) then Some(DecimalValue(s)) else None
    case _ => None
  }

  /** `Product.findByPk(productId)`: the row with the resolved key, or null. */
  function Lookup(e: Entry, catalogue: map<int, Product>): Option<Product> {
    var key := KeyOf(e.productId);
    if key.Some? && key.value in catalogue then Some(catalogue[key.value]) else None
  }

  /** Sending an id as its decimal text reaches the same row as sending the number. */
  lemma TextIdFindsSameRow(n: nat, q: Value, q': Value, catalogue: map<int, Product>)
    ensures KeyOf(Text(Numeral(n))) == KeyOf(Int(n)) == Some(n)
    ensures Lookup(Entry(Text(Numeral(n)), q), catalogue) == Lookup(Entry(Int(n), q'), catalogue)
  {
    NumeralRoundTrip(n);
  }

  /** The product exists and its availability is exactly `true`. */
  predicate InStock(e: Entry, catalogue: map<int, Product>) {
    Lookup(e, catalogue).Some? && Lookup(e, catalogue).value.availability == Some(true)
  }

  /** The product is in stock and belongs to the body's restaurantId (strict comparison). */
  predicate Offered(e: Entry, catalogue: map<int, Product>, restaurantId: Value) {
    InStock(e, catalogue) && restaurantId == Int(Lookup(e, catalogue).value.restaurantId)
  }

  /** The error create's validator throws for one entry, checked in this order. */
  function CreateEntryError(e: Entry, catalogue: map<int, Product>, restaurantId: Value): (r: Option<string>)
    ensures r.None? <==> Offered(e, catalogue, restaurantId)
    ensures Lookup(e, catalogue).None? ==> r == Some(ProductMissing)
    ensures Lookup(e, catalogue).Some? && Lookup(e, catalogue).value.availability != Some(true) ==>
              r == Some(ProductUnavailable)
    ensures InStock(e, catalogue) && !Offered(e, catalogue, restaurantId) ==> r == Some(ProductElsewhere)
  {
    var found := Lookup(e, catalogue);
    if found.None? then Some(ProductMissing)
    else if found.value.availability != Some(true) then Some(ProductUnavailable)
    else if restaurantId != Int(found.value.restaurantId) then Some(ProductElsewhere)
    else None
  }

  /** The error update's validator throws for one entry, when it throws one. */
  function StockError(e: Entry, catalogue: map<int, Product>): (r: Option<string>)
    ensures r.None? <==> InStock(e, catalogue)
    ensures Lookup(e, catalogue).None? ==> r == Some(ProductMissing)
    ensures Lookup(e, catalogue).Some? && Lookup(e, catalogue).value.availability != Some(true) ==>
              r == Some(ProductUnavailable)
  {
    var found := Lookup(e, catalogue);
    if found.None? then Some(ProductMissing)
    else if found.value.availability != Some(true) then Some(ProductUnavailable)
    else None
  }

  /** The restaurants of the entries that name an existing product. */
  function RestaurantsOf(entries: seq<Entry>, catalogue: map<int, Product>): set<int> {
    set i | 0 <= i < |entries| && Lookup(entries[i], catalogue).Some? :: Lookup(entries[i], catalogue).value.restaurantId
  }

  /**
   * Create's custom validator: visit the entries in order and throw the first
   * failing entry's error.
   */
  method CheckCreateProducts(products: ProductsValue, restaurantId: Value, catalogue: map<int, Product>)
    returns (error: Option<string>)
    ensures error.None? <==> forall i :: 0 <= i < |Entries(products)| ==> Offered(Entries(products)[i], catalogue, restaurantId)
    ensures error.Some? ==>
              exists k :: 0 <= k < |Entries(products)| &&
                          (forall j :: 0 <= j < k ==> Offered(Entries(products)[j], catalogue, restaurantId)) &&
                          error == CreateEntryError(Entries(products)[k], catalogue, restaurantId)
  {
    var entries := Entries(products);
    var i := 0;
    while i < |entries|
      invariant 0 <= i <= |entries|
      invariant forall j :: 0 <= j < i ==> Offered(entries[j], catalogue, restaurantId)
    {
      var found := Lookup(entries[i], catalogue);
      if found.None? {
        return Some(ProductMissing);
      } else if found.value.availability != Some(true) {
        return Some(ProductUnavailable);
      } else if restaurantId != Int(found.value.restaurantId) {
        return Some(ProductElsewhere);
      }
      i := i + 1;
    }
    return None;
  }

  /**
   * Update's custom validator: visit the entries in order, throw on the first
   * missing or unavailable product, collect the restaurant ids in a set, and
   * throw when the set ends up with more than one element.
   */
  method CheckUpdateProducts(products: ProductsValue, catalogue: map<int, Product>) returns (error: Option<string>)
    ensures error.None? <==>
              (forall i :: 0 <= i < |Entries(products)| ==> InStock(Entries(products)[i], catalogue)) &&
              |RestaurantsOf(Entries(products), catalogue)| <= 1
    ensures error.Some? ==>
              || (exists k :: 0 <= k < |Entries(products)| &&
                              (forall j :: 0 <= j < k ==> InStock(Entries(products)[j], catalogue)) &&
                              error == StockError(Entries(products)[k], catalogue))
              || ((forall i :: 0 <= i < |Entries(products)| ==> InStock(Entries(products)[i], catalogue)) &&
                  error == Some(MixedRestaurants))
  {
    var entries := Entries(products);
    var restaurantIds: set<int> := {};
    var i := 0;
    while i < |entries|
      invariant 0 <= i <= |entries|
      invariant forall j :: 0 <= j < i ==> InStock(entries[j], catalogue)
      invariant restaurantIds == RestaurantsOf(entries[..i], catalogue)
    {
      var found := Lookup(entries[i], catalogue);
      if found.None? {
        return Some(ProductMissing);
      } else if found.value.availability != Some(true) {
        return Some(ProductUnavailable);
      }
      assert RestaurantsOf(entries[..i + 1], catalogue) == RestaurantsOf(entries[..i], catalogue) + {found.value.restaurantId} by {
        assert forall j :: 0 <= j < i ==> entries[..i + 1][j] == entries[..i][j];
        assert entries[..i + 1][i] == entries[i];
      }
      restaurantIds := restaurantIds + {found.value.restaurantId};
      i := i + 1;
    }
    assert entries[..i] == entries;
    if |restaurantIds| > 1 {
      return Some(MixedRestaurants);
    }
    return None;
  }

  // -------------------------------------------------------------------
  // The whole chains
  // -------------------------------------------------------------------

  /** Everything create's chain demands of a body. */
  predicate CreateAccepted(body: OrderRequest, catalogue: map<int, Product>) {
    && IsIntAtLeast(body.restaurantId, 1)
    && SharedFieldErrors(body) == []
    && forall i :: 0 <= i < |Entries(body.products)| ==> Offered(Entries(body.products)[i], catalogue, body.restaurantId)
  }

  /** Everything update's chain demands of a body; nothing about the order being edited. */
  predicate UpdateAccepted(body: OrderRequest, catalogue: map<int, Product>) {
    && !Exists(body.restaurantId)
    && SharedFieldErrors(body) == []
    && (forall i :: 0 <= i < |Entries(body.products)| ==> InStock(Entries(body.products)[i], catalogue))
    && |RestaurantsOf(Entries(body.products), catalogue)| <= 1
  }

  /** Run create's chain: the field errors in chain order, then the custom validator's error if any. */
  method ValidateCreate(body: OrderRequest, catalogue: map<int, Product>) returns (errors: seq<Failure>)
    ensures errors == [] <==> CreateAccepted(body, catalogue)
    ensures |errors| >= |CreateFieldErrors(body)| && errors[..|CreateFieldErrors(body)|] == CreateFieldErrors(body)
    ensures forall f :: f in errors[|CreateFieldErrors(body)|..] ==>
              f.ProductsRejected? && f.message in {ProductMissing, ProductUnavailable, ProductElsewhere}
    ensures |errors| <= |CreateFieldErrors(body)| + 1
    ensures |errors| == |CreateFieldErrors(body)| + 1 <==>
              exists i :: 0 <= i < |Entries(body.products)| && !Offered(Entries(body.products)[i], catalogue, body.restaurantId)
    ensures |errors| == |CreateFieldErrors(body)| + 1 ==>
              exists k :: 0 <= k < |Entries(body.products)| &&
                          (forall j :: 0 <= j < k ==> Offered(Entries(body.products)[j], catalogue, body.restaurantId)) &&
                          Some(errors[|CreateFieldErrors(body)|].message) ==
                          CreateEntryError(Entries(body.products)[k], catalogue, body.restaurantId)
  {
    var productError := CheckCreateProducts(body.products, body.restaurantId, catalogue);
    errors := CreateFieldErrors(body);
    if productError.Some? {
      errors := errors + [ProductsRejected(productError.value)];
    }
  }

  /** Run update's chain. */
  method ValidateUpdate(body: OrderRequest, catalogue: map<int, Product>) returns (errors: seq<Failure>)
    ensures errors == [] <==> UpdateAccepted(body, catalogue)
    ensures |errors| >= |UpdateFieldErrors(body)| && errors[..|UpdateFieldErrors(body)|] == UpdateFieldErrors(body)
    ensures forall f :: f in errors[|UpdateFieldErrors(body)|..] ==>
              f.ProductsRejected? && f.message in {ProductMissing, ProductUnavailable, MixedRestaurants}
    ensures |errors| <= |UpdateFieldErrors(body)| + 1
    ensures |errors| == |UpdateFieldErrors(body)| + 1 <==>
              !((forall i :: 0 <= i < |Entries(body.products)| ==> InStock(Entries(body.products)[i], catalogue)) &&
                |RestaurantsOf(Entries(body.products), catalogue)| <= 1)
    ensures |errors| == |UpdateFieldErrors(body)| + 1 ==>
              || (exists k :: 0 <= k < |Entries(body.products)| &&
                              (forall j :: 0 <= j < k ==> InStock(Entries(body.products)[j], catalogue)) &&
                              Some(errors[|UpdateFieldErrors(body)|].message) == StockError(Entries(body.products)[k], catalogue))
              || ((forall i :: 0 <= i < |Entries(body.products)| ==> InStock(Entries(body.products)[i], catalogue)) &&
                  errors[|UpdateFieldErrors(body)|].message == MixedRestaurants)
  {
    var productError := CheckUpdateProducts(body.products, catalogue);
    errors := UpdateFieldErrors(body);
    if productError.Some? {
      errors := errors + [ProductsRejected(productError.value)];
    }
  }

  /**
   * A body update accepts may name products of any one restaurant, including
   * one other than the edited order's: the chain never sees that order.
   */
  lemma UpdateAcceptsAnyOneRestaurant(orderRestaurant: int, other: int, p: Product)
    requires other != orderRestaurant && p.restaurantId == other && p.availability == Some(true)
    ensures var body := OrderRequest(Absent, Array([Entry(Int(p.id), Int(1))]), Text("Calle Real 1"));
            UpdateAccepted(body, map[p.id := p])
  {
    var body := OrderRequest(Absent, Array([Entry(Int(p.id), Int(1))]), Text("Calle Real 1"));
    assert RestaurantsOf(Entries(body.products), map[p.id := p]) == {other};
  }
}
