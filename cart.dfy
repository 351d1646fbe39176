/**
 * The customer's shopping cart on a restaurant's detail screen: adding and
 * removing one unit of a product, emptying the cart, and the request the
 * screen posts when the order is confirmed.
 */
module Cart {
  import opened Wrappers

  /** A product of the restaurant's list, as the screen received it. */
  datatype Product = Product(id: int, price: int)

  /** A cart entry: the product's fields spread into it, plus a quantity. */
  datatype Item = Item(id: int, price: int, quantity: int)

  /** The cart invariant: ids are unique and every quantity is at least 1. */
  predicate ValidCart(cart: seq<Item>) {
    && (forall i, j :: 0 <= i < j < |cart| ==> cart[i].id != cart[j].id)
    && (forall i :: 0 <= i < |cart| ==> cart[i].quantity >= 1)
  }

  /** `find`: the first entry with the given id. */
  function FindItem(cart: seq<Item>, id: int): (r: Option<nat>)
    ensures r.Some? ==> r.value < |cart| && cart[r.value].id == id && forall j :: 0 <= j < r.value ==> cart[j].id != id
    ensures r.None? ==> forall j :: 0 <= j < |cart| ==> cart[j].id != id
  {
    if |cart| == 0 then None
    else if cart[0].id == id then Some(0)
    else match FindItem(cart[1..], id)
      case None => None
      case Some(k) => Some(k + 1)
  }

  /** `map`: add `delta` to the quantity of every entry with the given id. */
  function AddToQuantity(cart: seq<Item>, id: int, delta: int): (r: seq<Item>)
    ensures |r| == |cart|
    ensures forall i :: 0 <= i < |cart| ==>
              r[i] == if cart[i].id == id then cart[i].(quantity := cart[i].quantity + delta) else cart[i]
  {
    if |cart| == 0 then []
    else
      [if cart[0].id == id then cart[0].(quantity := cart[0].quantity + delta) else cart[0]]
      + AddToQuantity(cart[1..], id, delta)
  }

  /** `filter`: keep the entries whose id differs from the given one. */
  function RemoveId(cart: seq<Item>, id: int): (r: seq<Item>)
    ensures |r| <= |cart|
    ensures forall i :: 0 <= i < |r| ==> r[i].id != id
  {
    if |cart| == 0 then []
    else (if cart[0].id == id then [] else [cart[0]]) + RemoveId(cart[1..], id)
  }

  /** `incrementProduct`: one more unit of the product; a new product goes last with quantity 1. */
  function Increment(cart: seq<Item>, p: Product): (r: seq<Item>)
    ensures |r| == |cart| + (if FindItem(cart, p.id).Some? then 0 else 1)
  {
    if FindItem(cart, p.id).Some? then AddToQuantity(cart, p.id, 1)
    else cart + [Item(p.id, p.price, 1)]
  }

  /** `decrementProduct`: one unit less; an entry at quantity 1 (or below) disappears. */
  function Decrement(cart: seq<Item>, p: Product): (r: seq<Item>)
    ensures |r| <= |cart|
    ensures FindItem(cart, p.id).None? ==> r == cart
  {
    match FindItem(cart, p.id)
    case None => cart
    case Some(k) =>
      if cart[k].quantity > 1 then AddToQuantity(cart, p.id, -1) else RemoveId(cart, p.id)
  }

  /** Removing an id no entry has leaves the cart as it is. */
  lemma {:induction false} RemoveAbsentId(cart: seq<Item>, id: int)
    requires forall i :: 0 <= i < |cart| ==> cart[i].id != id
    ensures RemoveId(cart, id) == cart
  {
    if |cart| > 0 {
      RemoveAbsentId(cart[1..], id);
      assert cart == [cart[0]] + cart[1..];
    }
  }

  /** With unique ids, removing an entry's id removes exactly that entry. */
  lemma {:induction false} RemoveAt(cart: seq<Item>, k: nat)
    requires k < |cart|
    requires forall i, j :: 0 <= i < j < |cart| ==> cart[i].id != cart[j].id
    ensures RemoveId(cart, cart[k].id) == cart[..k] + cart[k + 1..]
  {
    var id := cart[k].id;
    var tail := cart[1..];
    assert forall i :: 0 <= i < |tail| ==> tail[i] == cart[i + 1];
    if k == 0 {
      assert forall i :: 0 <= i < |tail| ==> tail[i].id != id by {
        forall i | 0 <= i < |tail| ensures tail[i].id != id { assert cart[0].id != cart[i + 1].id; }
      }
      RemoveAbsentId(tail, id);
      assert cart[..0] + cart[1..] == tail;
    } else {
      assert cart[0].id != id;
      assert forall i, j :: 0 <= i < j < |tail| ==> tail[i].id != tail[j].id by {
        forall i, j | 0 <= i < j < |tail| ensures tail[i].id != tail[j].id {
          assert cart[i + 1].id != cart[j + 1].id;
        }
      }
      assert tail[k - 1] == cart[k];
      RemoveAt(tail, k - 1);
      assert RemoveId(cart, id) == [cart[0]] + RemoveId(tail, id);
      assert tail[..k - 1] + tail[k..] == cart[1..k] + cart[k + 1..];
      assert cart[..k] == [cart[0]] + cart[1..k];
    }
  }

  /**
   * Increment of a product already in the cart raises that entry's quantity
   * by one and changes nothing else; of a new product, appends it with quantity 1.
   */
  lemma IncrementEffect(cart: seq<Item>, p: Product)
    requires ValidCart(cart)
    ensures FindItem(cart, p.id).Some? ==>
              var k := FindItem(cart, p.id).value;
              Increment(cart, p) == cart[k := cart[k].(quantity := cart[k].quantity + 1)]
    ensures FindItem(cart, p.id).None? ==> Increment(cart, p) == cart + [Item(p.id, p.price, 1)]
  {
  }

  /**
   * Decrement of an entry above 1 lowers it by one and changes nothing else;
   * of an entry at 1, removes it; of a product not in the cart, changes nothing.
   */
  lemma DecrementEffect(cart: seq<Item>, p: Product)
    requires ValidCart(cart)
    ensures FindItem(cart, p.id).Some? && cart[FindItem(cart, p.id).value].quantity > 1 ==>
              var k := FindItem(cart, p.id).value;
              Decrement(cart, p) == cart[k := cart[k].(quantity := cart[k].quantity - 1)]
    ensures FindItem(cart, p.id).Some? && cart[FindItem(cart, p.id).value].quantity == 1 ==>
              var k := FindItem(cart, p.id).value;
              Decrement(cart, p) == cart[..k] + cart[k + 1..]
    ensures FindItem(cart, p.id).None? ==> Decrement(cart, p) == cart
  {
    match FindItem(cart, p.id)
    case None =>
    case Some(k) =>
      if cart[k].quantity == 1 {
        RemoveAt(cart, k);
      }
  }

  /** Increment keeps the cart invariant. */
  lemma IncrementKeepsInvariant(cart: seq<Item>, p: Product)
    requires ValidCart(cart)
    ensures ValidCart(Increment(cart, p))
  {
    var r := Increment(cart, p);
    if FindItem(cart, p.id).Some? {
      assert forall i :: 0 <= i < |r| ==> r[i].id == cart[i].id && r[i].quantity >= cart[i].quantity;
    } else {
      var n := |cart|;
      assert forall i :: 0 <= i < n ==> r[i] == cart[i] && r[i].id != p.id;
      assert r[n].id == p.id;
    }
  }

  /** Decrement keeps the cart invariant. */
  lemma DecrementKeepsInvariant(cart: seq<Item>, p: Product)
    requires ValidCart(cart)
    ensures ValidCart(Decrement(cart, p))
  {
    match FindItem(cart, p.id)
    case None =>
    case Some(k) =>
      var r := Decrement(cart, p);
      if cart[k].quantity > 1 {
        assert forall i :: 0 <= i < |cart| && i != k ==> cart[i].id != p.id;
        assert forall i :: 0 <= i < |r| ==> r[i].id == cart[i].id && r[i].quantity >= 1;
      } else {
        RemoveAt(cart, k);
        assert r == cart[..k] + cart[k + 1..];
        assert forall i :: 0 <= i < |r| ==> r[i] == if i < k then cart[i] else cart[i + 1];
      }
  }

  /** Round trip for a product already in the cart. */
  lemma UndoIncrementPresent(cart: seq<Item>, p: Product, k: nat)
    requires ValidCart(cart) && FindItem(cart, p.id) == Some(k)
    ensures Decrement(Increment(cart, p), p) == cart
  {
    var up := AddToQuantity(cart, p.id, 1);
    assert Increment(cart, p) == up;
    assert forall j :: 0 <= j < |up| ==> up[j].id == cart[j].id;
    assert up[k].id == p.id;
    assert FindItem(up, p.id) == Some(k);
    assert up[k].quantity > 1;
    var down := AddToQuantity(up, p.id, -1);
    assert forall j :: 0 <= j < |cart| ==> down[j] == cart[j];
  }

  /** Round trip for a product not in the cart. */
  lemma UndoIncrementAbsent(cart: seq<Item>, p: Product)
    requires ValidCart(cart) && FindItem(cart, p.id).None?
    ensures Decrement(Increment(cart, p), p) == cart
  {
    var n := |cart|;
    var up := cart + [Item(p.id, p.price, 1)];
    assert Increment(cart, p) == up;
    assert forall j :: 0 <= j < n ==> up[j] == cart[j];
    assert up[n].id == p.id;
    assert FindItem(up, p.id) == Some(n);
    assert forall i, j :: 0 <= i < j < |up| ==> up[i].id != up[j].id by {
      forall i, j | 0 <= i < j < |up| ensures up[i].id != up[j].id {
        if j == n { assert up[i] == cart[i]; } else { assert up[i] == cart[i] && up[j] == cart[j]; }
      }
    }
    RemoveAt(up, n);
    assert up[..n] + up[n + 1..] == cart;
  }

  /** Decrementing right after incrementing the same product gives back the cart. */
  lemma DecrementUndoesIncrement(cart: seq<Item>, p: Product)
    requires ValidCart(cart)
    ensures Decrement(Increment(cart, p), p) == cart
  {
    match FindItem(cart, p.id)
    case Some(k) => UndoIncrementPresent(cart, p, k);
    case None => UndoIncrementAbsent(cart, p);
  }

  /** `cancelOrder`: `None` when the cart is already empty (no state update), otherwise the empty cart. */
  function CancelOrder(cart: seq<Item>): (r: Option<seq<Item>>)
    ensures r.None? <==> cart == []
    ensures r.Some? ==> r.value == []
  {
    if |cart| == 0 then None else Some([])
  }

  // -------------------------------------------------------------------
  // confirmOrder
  // -------------------------------------------------------------------

  /** The logged-in user as the screen sees it; an empty address counts as none. */
  datatype User = User(address: Option<string>)

  datatype PayloadLine = PayloadLine(productId: int, quantity: int, price: int)

  /** The body posted to create an order. `restaurantId` is undefined until the restaurant is fetched. */
  datatype Payload = Payload(restaurantId: Option<int>, address: string, products: seq<PayloadLine>)

  /** What confirming does: nothing, the missing-address message, or a post (and the cart afterwards). */
  datatype Confirmation =
    | NoAction
    | AddressMissing
    | Posted(payload: Payload, success: bool, cartAfter: seq<Item>)

  function PayloadLines(cart: seq<Item>): (r: seq<PayloadLine>)
    ensures |r| == |cart|
    ensures forall i :: 0 <= i < |cart| ==> r[i] == PayloadLine(cart[i].id, cart[i].quantity, cart[i].price)
  {
    if |cart| == 0 then [] else [PayloadLine(cart[0].id, cart[0].quantity, cart[0].price)] + PayloadLines(cart[1..])
  }

  /**
   * `confirmOrder`: an empty cart does nothing; without a user or with an
   * empty address, the error message; otherwise the post, whose outcome
   * `postSucceeds` is external, emptying the cart only on success.
   */
  function ConfirmOrder(cart: seq<Item>, user: Option<User>, restaurantId: Option<int>, postSucceeds: bool): (c: Confirmation)
    ensures cart == [] <==> c.NoAction?
    ensures c.AddressMissing? <==> cart != [] && (user.None? || user.value.address.None? || user.value.address.value == "")
    ensures c.Posted? ==>
              && c.payload.restaurantId == restaurantId
              && Some(c.payload.address) == user.value.address
              && c.payload.products == PayloadLines(cart)
              && c.success == postSucceeds
              && c.cartAfter == (if postSucceeds then [] else cart)
  {
    if |cart| == 0 then NoAction
    else if user.None? || user.value.address.None? || user.value.address.value == "" then AddressMissing
    else Posted(Payload(restaurantId, user.value.address.value, PayloadLines(cart)), postSucceeds, if postSucceeds then [] else cart)
  }
}
