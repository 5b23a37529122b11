/**
 * The cart handlers of src/controllers/cartController.js.  Each user has at
 * most one cart (the store is keyed by the owning user, as `Cart.findOne({
 * user })` reads it), and a cart is a sequence of items updated in place:
 * merge-or-append, filter, set one quantity, empty.  The product catalogue
 * is consulted only for existence.
 */
module Carts {
  import opened Common

  datatype CartItem = CartItem(product: Id, quantity: int)

  const DefaultQuantity: int := 1

  /** The item matcher `item => item.product.toString() === productId`. */
  function IsFor(productId: Id): CartItem -> bool {
    (item: CartItem) => item.product == productId
  }

  function NotFor(productId: Id): CartItem -> bool {
    (item: CartItem) => item.product != productId
  }

  /** No two items of a cart are for the same product. */
  predicate OneItemPerProduct(items: seq<CartItem>) {
    forall i, j :: 0 <= i < j < |items| ==> items[i].product != items[j].product
  }

  /** The items after adding `quantity` of a product: the existing item grows, or a new item goes at the end. */
  function AddItem(items: seq<CartItem>, productId: Id, quantity: int): (r: seq<CartItem>)
    ensures var k := FindIndex(items, IsFor(productId));
      && (k >= 0 ==> |r| == |items| && r == items[k := CartItem(productId, items[k].quantity + quantity)])
      && (k < 0 ==> r == items + [CartItem(productId, quantity)])
    ensures exists i :: 0 <= i < |r| && r[i].product == productId
    ensures forall i :: 0 <= i < |items| && items[i].product != productId ==> r[i] == items[i]
  {
    var k := FindIndex(items, IsFor(productId));
    if k > -1 then
      var r := items[k := items[k].(quantity := items[k].quantity + quantity)];
      assert r[k].product == productId;
      r
    else
      var r := items + [CartItem(productId, quantity)];
      assert r[|items|].product == productId;
      r
  }

  /** The items after setting the first matching item's quantity (the handler answers 404 when there is none). */
  function SetQuantity(items: seq<CartItem>, productId: Id, quantity: int): (r: seq<CartItem>)
    requires FindIndex(items, IsFor(productId)) >= 0
    ensures |r| == |items|
    ensures var k := FindIndex(items, IsFor(productId));
      r[k] == CartItem(productId, quantity) && forall i :: 0 <= i < |items| && i != k ==> r[i] == items[i]
  {
    var k := FindIndex(items, IsFor(productId));
    items[k := items[k].(quantity := quantity)]
  }

  /** `items.filter(item => item.product !== productId)`: nothing for the product is left, and the other items keep their order. */
  lemma RemoveItemSpec(items: seq<CartItem>, productId: Id)
    ensures forall i :: 0 <= i < |Filter(items, NotFor(productId))| ==> Filter(items, NotFor(productId))[i].product != productId
    ensures forall i :: 0 <= i < |items| && items[i].product != productId ==> items[i] in Filter(items, NotFor(productId))
    ensures forall a, b :: items == a + b ==>
      Filter(items, NotFor(productId)) == Filter(a, NotFor(productId)) + Filter(b, NotFor(productId))
  {
    forall a, b | items == a + b
      ensures Filter(items, NotFor(productId)) == Filter(a, NotFor(productId)) + Filter(b, NotFor(productId))
    {
      FilterAppend(a, b, NotFor(productId));
    }
  }

  /** Adding keeps one item per product. */
  lemma AddKeepsOneItemPerProduct(items: seq<CartItem>, productId: Id, quantity: int)
    requires OneItemPerProduct(items)
    ensures OneItemPerProduct(AddItem(items, productId, quantity))
  {
  }

  /** Adding a product already in the cart keeps the number of items; adding a new one adds one item. */
  lemma AddItemCount(items: seq<CartItem>, productId: Id, quantity: int)
    ensures (exists i :: 0 <= i < |items| && items[i].product == productId) ==> |AddItem(items, productId, quantity)| == |items|
    ensures (forall i :: 0 <= i < |items| ==> items[i].product != productId) ==> |AddItem(items, productId, quantity)| == |items| + 1
  {
    var k := FindIndex(items, IsFor(productId));
    if exists i :: 0 <= i < |items| && items[i].product == productId {
      var i :| 0 <= i < |items| && items[i].product == productId;
      assert IsFor(productId)(items[i]);
    }
  }

  /** Setting a quantity keeps one item per product. */
  lemma SetKeepsOneItemPerProduct(items: seq<CartItem>, productId: Id, quantity: int)
    requires OneItemPerProduct(items) && FindIndex(items, IsFor(productId)) >= 0
    ensures OneItemPerProduct(SetQuantity(items, productId, quantity))
  {
  }

  /** Removing keeps one item per product. */
  lemma {:induction false} RemoveKeepsOneItemPerProduct(items: seq<CartItem>, productId: Id)
    requires OneItemPerProduct(items)
    ensures OneItemPerProduct(Filter(items, NotFor(productId)))
  {
    if |items| > 0 {
      RemoveKeepsOneItemPerProduct(items[1..], productId);
      var rest := Filter(items[1..], NotFor(productId));
      forall i | 0 <= i < |rest| ensures rest[i].product != items[0].product {
        assert rest[i] in items[1..];
      }
    }
  }

  predicate AllCartsWellFormed(carts: map<Id, seq<CartItem>>) {
    forall u :: u in carts ==> OneItemPerProduct(carts[u])
  }

  class CartStore {
    /** Cart items by owning user. */
    var carts: map<Id, seq<CartItem>>

    constructor ()
      ensures carts == map[]
    {
      carts := map[];
    }

    /** The caller's items, empty for a user without a cart (`new Cart({ user, items: [] })`). */
    function ItemsOf(user: Id): (items: seq<CartItem>)
      reads this
      ensures user in carts ==> items == carts[user]
      ensures user !in carts ==> items == []
    {
      if user in carts then carts[user] else []
    }

    /** `addToCart`: 404 and nothing saved for an unknown product; otherwise merge or append, creating the cart if needed. */
    method AddToCart(caller: Caller, productId: Id, quantity: Option<int>, catalogue: set<Id>)
      returns (code: nat, cart: Option<seq<CartItem>>)
      modifies this
      ensures productId !in catalogue ==> code == NotFound && cart == None && carts == old(carts)
      ensures productId in catalogue ==>
        && code == Ok
        && carts == old(carts)[caller.userId := AddItem(old(ItemsOf(caller.userId)), productId, quantity.GetOr(DefaultQuantity))]
        && cart == Some(carts[caller.userId])
      ensures AllCartsWellFormed(old(carts)) ==> AllCartsWellFormed(carts)
    {
      var items := ItemsOf(caller.userId);
      if productId !in catalogue {
        return NotFound, None;
      }
      var q := quantity.GetOr(DefaultQuantity);
      var k := FindIndex(items, IsFor(productId));
      if k > -1 {
        items := items[k := items[k].(quantity := items[k].quantity + q)];
      } else {
        items := items + [CartItem(productId, q)];
      }
      if OneItemPerProduct(ItemsOf(caller.userId)) {
        AddKeepsOneItemPerProduct(ItemsOf(caller.userId), productId, q);
      }
      carts := carts[caller.userId := items];
      return Ok, Some(items);
    }

    /** `removeFromCart`: 404 without a cart; otherwise drops every item for the product. */
    method RemoveFromCart(caller: Caller, productId: Id) returns (code: nat, cart: Option<seq<CartItem>>)
      modifies this
      ensures caller.userId !in old(carts) ==> code == NotFound && cart == None && carts == old(carts)
      ensures caller.userId in old(carts) ==>
        && code == Ok
        && carts == old(carts)[caller.userId := Filter(old(carts)[caller.userId], NotFor(productId))]
        && cart == Some(carts[caller.userId])
      ensures AllCartsWellFormed(old(carts)) ==> AllCartsWellFormed(carts)
    {
      if caller.userId !in carts {
        return NotFound, None;
      }
      var items := Filter(carts[caller.userId], NotFor(productId));
      if OneItemPerProduct(carts[caller.userId]) {
        RemoveKeepsOneItemPerProduct(carts[caller.userId], productId);
      }
      carts := carts[caller.userId := items];
      return Ok, Some(items);
    }

    /** `updateCartItem`: 404 without a cart or without an item for the product; otherwise sets that item's quantity. */
    method UpdateCartItem(caller: Caller, productId: Id, quantity: int) returns (code: nat, cart: Option<seq<CartItem>>)
      modifies this
      ensures caller.userId !in old(carts) ==> code == NotFound && cart == None && carts == old(carts)
      ensures caller.userId in old(carts) && FindIndex(old(carts)[caller.userId], IsFor(productId)) < 0 ==>
        code == NotFound && cart == None && carts == old(carts)
      ensures caller.userId in old(carts) && FindIndex(old(carts)[caller.userId], IsFor(productId)) >= 0 ==>
        && code == Ok
        && carts == old(carts)[caller.userId := SetQuantity(old(carts)[caller.userId], productId, quantity)]
        && cart == Some(carts[caller.userId])
      ensures AllCartsWellFormed(old(carts)) ==> AllCartsWellFormed(carts)
    {
      if caller.userId !in carts {
        return NotFound, None;
      }
      var items := carts[caller.userId];
      var k := FindIndex(items, IsFor(productId));
      if k < 0 {
        return NotFound, None;
      }
      if OneItemPerProduct(items) {
        SetKeepsOneItemPerProduct(items, productId, quantity);
      }
      items := items[k := items[k].(quantity := quantity)];
      carts := carts[caller.userId := items];
      return Ok, Some(items);
    }

    /** `getCart`: the caller's cart, or 404. */
    method GetCart(caller: Caller) returns (code: nat, cart: Option<seq<CartItem>>)
      ensures caller.userId !in carts ==> code == NotFound && cart == None
      ensures caller.userId in carts ==> code == Ok && cart == Some(carts[caller.userId])
    {
      if caller.userId !in carts {
        return NotFound, None;
      }
      return Ok, Some(carts[caller.userId]);
    }

    /** `clearCart`: 404 without a cart; otherwise the cart is kept with no items. */
    method ClearCart(caller: Caller) returns (code: nat, cart: Option<seq<CartItem>>)
      modifies this
      ensures caller.userId !in old(carts) ==> code == NotFound && cart == None && carts == old(carts)
      ensures caller.userId in old(carts) ==> code == Ok && carts == old(carts)[caller.userId := []] && cart == Some([])
      ensures AllCartsWellFormed(old(carts)) ==> AllCartsWellFormed(carts)
    {
      if caller.userId !in carts {
        return NotFound, None;
      }
      carts := carts[caller.userId := []];
      return Ok, Some([]);
    }
  }
}
