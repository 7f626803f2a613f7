/**
  The shopping cart kept by the client's application context
  (client/src/context/AppContext.jsx): the `cartItems` object of quantities by
  product id, the three operations that replace it by an edited copy, and the
  two totals computed over it.
 */
module CartStore {
  import opened Js
  import opened Tally
  import opened ClientCatalog

  /** The `cartItems` object: quantities by product id, with the keys in
      insertion order, the order `for...in` visits them. */
  datatype Cart = Cart(keys: seq<string>, qty: map<string, int>)

  /** Every key listed once, and the listed keys are the keys with a quantity. */
  ghost predicate WellFormed(c: Cart)
  {
    Distinct(c.keys) && forall k :: k in c.qty <==> k in c.keys
  }

  const EmptyCart: Cart := Cart([], map[])

  /** `cartData[k] = v`: a new key goes last, an existing key keeps its place. */
  function Assign(c: Cart, k: string, v: int): (r: Cart)
    requires WellFormed(c)
    ensures WellFormed(r)
  {
    if k in c.qty then Cart(c.keys, c.qty[k := v])
    else
      assert forall i :: 0 <= i < |c.keys| ==> c.keys[i] in c.qty;
      Cart(c.keys + [k], c.qty[k := v])
  }

  /** `delete cartData[k]` */
  function Delete(c: Cart, k: string): (r: Cart)
    requires WellFormed(c)
    ensures WellFormed(r)
  {
    Cart(Without(c.keys, k), c.qty - {k})
  }

  /** `cartData[id]` is truthy: present and not zero. */
  predicate Holds(c: Cart, id: string)
  {
    id in c.qty && c.qty[id] != 0
  }

  /** Only the key `id` differs between `c` and `r`. */
  ghost predicate OthersUnchanged(c: Cart, r: Cart, id: string)
  {
    forall k :: k != id ==> (k in r.qty <==> k in c.qty) && (k in c.qty ==> r.qty[k] == c.qty[k])
  }

  /** addToCart: one more of `id`, or one when it is absent or at zero. */
  function Added(c: Cart, id: string): (r: Cart)
    requires WellFormed(c)
    ensures WellFormed(r) && OthersUnchanged(c, r, id)
    ensures id in r.qty && r.qty[id] == if Holds(c, id) then c.qty[id] + 1 else 1
    ensures |c.keys| <= |r.keys| && r.keys[..|c.keys|] == c.keys
  {
    if Holds(c, id) then Assign(c, id, c.qty[id] + 1) else Assign(c, id, 1)
  }

  /** removeFromCart: one fewer of a held `id`, dropping the key when that
      leaves zero; an absent `id` or one at zero leaves the cart as it is. */
  function Removed(c: Cart, id: string): (r: Cart)
    requires WellFormed(c)
    ensures WellFormed(r) && OthersUnchanged(c, r, id)
    ensures !Holds(c, id) ==> r == c
    ensures Holds(c, id) && c.qty[id] == 1 ==> id !in r.qty && r.keys == Without(c.keys, id)
    ensures Holds(c, id) && c.qty[id] != 1 ==> r.keys == c.keys && id in r.qty && r.qty[id] == c.qty[id] - 1
  {
    if !Holds(c, id) then c
    else
      var d := Assign(c, id, c.qty[id] - 1);
      if d.qty[id] == 0 then Delete(d, id) else d
  }

  /** updateCartItem: exactly the given quantity, kept even when it is zero. */
  function Updated(c: Cart, id: string, quantity: int): (r: Cart)
    requires WellFormed(c)
    ensures WellFormed(r) && OthersUnchanged(c, r, id)
    ensures id in r.qty && r.qty[id] == quantity
    ensures id in c.qty ==> r.keys == c.keys
  {
    Assign(c, id, quantity)
  }

  /** Adding then removing the same product restores the cart, except when
      the product was already there at 0 or -1: adding turns 0 into 1, which
      removing deletes, and turns -1 into 0, which removing leaves alone. */
  lemma AddThenRemove(c: Cart, id: string)
    requires WellFormed(c)
    ensures Removed(Added(c, id), id) == c <==> !(id in c.qty && (c.qty[id] == 0 || c.qty[id] == -1))
  {
    if id !in c.qty {
      AddThenRemoveAbsent(c, id);
    } else if c.qty[id] == 0 {
      assert id !in Removed(Added(c, id), id).qty;
    } else if c.qty[id] == -1 {
      assert Removed(Added(c, id), id).qty[id] == 0;
    } else {
      assert Removed(Added(c, id), id).qty == c.qty;
    }
  }

  /** A product not in the cart is appended by adding and dropped again by removing. */
  lemma AddThenRemoveAbsent(c: Cart, id: string)
    requires WellFormed(c) && id !in c.qty
    ensures Removed(Added(c, id), id) == c
  {
    var a := Added(c, id);
    assert a == Cart(c.keys + [id], c.qty[id := 1]);
    var keys := c.keys + [id];
    assert Without(keys, id) == c.keys by {
      assert keys[..|keys| - 1] == c.keys;
    }
    assert c.qty[id := 1][id := 0] - {id} == c.qty;
  }

  /** The number of items: the sum of the quantities. */
  function Count(c: Cart): int
    requires WellFormed(c)
  {
    SumOver(c.keys, c.qty)
  }

  /** Adding always raises the count by one. */
  lemma CountAfterAdd(c: Cart, id: string)
    requires WellFormed(c)
    ensures Count(Added(c, id)) == Count(c) + 1
  {
    if id in c.qty {
      SumOverUpdate(c.keys, c.qty, id, Added(c, id).qty[id]);
    } else {
      assert forall k :: k in c.keys ==> k in c.qty;
      SumOverUnaffected(c.keys, c.qty, id, 1);
      assert (c.keys + [id])[..|c.keys|] == c.keys;
    }
  }

  /** Removing lowers the count by one when the product is held, and leaves
      it alone otherwise. */
  lemma CountAfterRemove(c: Cart, id: string)
    requires WellFormed(c)
    ensures Count(Removed(c, id)) == if Holds(c, id) then Count(c) - 1 else Count(c)
  {
    if Holds(c, id) {
      var d := Assign(c, id, c.qty[id] - 1);
      SumOverUpdate(c.keys, c.qty, id, c.qty[id] - 1);
      if d.qty[id] == 0 {
        SumOverWithout(d.keys, d.qty, id);
        SumOverRemoved(Without(d.keys, id), d.qty, id);
      }
    }
  }

  /** The amount of the loaded products, before rounding: quantity times
      offer price over the keys with a positive quantity; `None` when such a
      key names no loaded product, where `itemInfo.offerPrice` throws. */
  function Amount(keys: seq<string>, qty: map<string, int>, products: seq<Product>): Option<int>
    requires forall k :: k in keys ==> k in qty
  {
    if keys == [] then Some(0)
    else
      var k := keys[|keys| - 1];
      match Amount(keys[..|keys| - 1], qty, products)
      case None => None
      case Some(t) =>
        if qty[k] <= 0 then Some(t)
        else match FindProduct(products, k)
          case None => None
          case Some(p) => Some(t + qty[k] * p.offerPrice)
  }

  /** The amount exists exactly when every key with a positive quantity
      names a loaded product. */
  lemma {:induction false} AmountDefinedIff(keys: seq<string>, qty: map<string, int>, products: seq<Product>)
    requires forall k :: k in keys ==> k in qty
    ensures Amount(keys, qty, products).Some? <==>
              forall i :: 0 <= i < |keys| && qty[keys[i]] > 0 ==> FindProduct(products, keys[i]).Some?
  {
    if keys != [] {
      var init := keys[..|keys| - 1];
      AmountDefinedIff(init, qty, products);
      assert forall i :: 0 <= i < |init| ==> init[i] == keys[i];
    }
  }

  /** With prices that are not negative, neither is the amount: only positive
      quantities take part. */
  lemma {:induction false} AmountNotNegative(keys: seq<string>, qty: map<string, int>, products: seq<Product>)
    requires forall k :: k in keys ==> k in qty
    requires forall i :: 0 <= i < |products| ==> products[i].offerPrice >= 0
    ensures Amount(keys, qty, products).Some? ==> Amount(keys, qty, products).value >= 0
  {
    if keys != [] {
      AmountNotNegative(keys[..|keys| - 1], qty, products);
    }
  }

  /** A prefix without an amount leaves the whole cart without one. */
  lemma {:induction false} NoAmountPersists(keys: seq<string>, qty: map<string, int>, products: seq<Product>, n: nat)
    requires forall k :: k in keys ==> k in qty
    requires n <= |keys| && Amount(keys[..n], qty, products).None?
    ensures Amount(keys, qty, products).None?
  {
    if n < |keys| {
      assert keys[..n] == keys[..|keys| - 1][..n];
      NoAmountPersists(keys[..|keys| - 1], qty, products, n);
    } else {
      assert keys[..n] == keys;
    }
  }

  /** The context's state: the cart and the loaded products. Each cart
      operation works on a copy of `cartItems` and stores the copy. */
  class CartContext {
    var cartItems: Cart
    var products: seq<Product>

    ghost predicate Valid()
      reads this
    {
      WellFormed(cartItems)
    }

    constructor (products: seq<Product>)
      ensures Valid() && cartItems == EmptyCart && this.products == products
    {
      cartItems := EmptyCart;
      this.products := products;
    }

    method AddToCart(itemId: string)
      requires Valid()
      modifies this
      ensures Valid() && cartItems == Added(old(cartItems), itemId) && products == old(products)
    {
      var cartData := cartItems;
      if itemId in cartData.qty && cartData.qty[itemId] != 0 {
        cartData := Assign(cartData, itemId, cartData.qty[itemId] + 1);
      } else {
        cartData := Assign(cartData, itemId, 1);
      }
      cartItems := cartData;
    }

    method UpdateCartItem(itemId: string, quantity: int)
      requires Valid()
      modifies this
      ensures Valid() && cartItems == Updated(old(cartItems), itemId, quantity) && products == old(products)
    {
      var cartData := cartItems;
      cartData := Assign(cartData, itemId, quantity);
      cartItems := cartData;
    }

    method RemoveFromCart(itemId: string)
      requires Valid()
      modifies this
      ensures Valid() && cartItems == Removed(old(cartItems), itemId) && products == old(products)
    {
      var cartData := cartItems;
      if itemId in cartData.qty && cartData.qty[itemId] != 0 {
        cartData := Assign(cartData, itemId, cartData.qty[itemId] - 1);
        if cartData.qty[itemId] == 0 {
          cartData := Delete(cartData, itemId);
        }
        cartItems := cartData;
      }
    }

    /** cartCount: the quantities added up in key order. */
    method CartCount() returns (totalCount: int)
      requires Valid()
      ensures totalCount == Count(cartItems)
    {
      totalCount := 0;
      var i := 0;
      while i < |cartItems.keys|
        invariant 0 <= i <= |cartItems.keys|
        invariant totalCount == SumOver(cartItems.keys[..i], cartItems.qty)
      {
        assert cartItems.keys[..i + 1][..i] == cartItems.keys[..i];
        totalCount := totalCount + cartItems.qty[cartItems.keys[i]];
        i := i + 1;
      }
      assert cartItems.keys[..i] == cartItems.keys;
    }

    /** totalCartAmount over integer prices (where the rounding to cents
        changes nothing); `None` where the source throws. */
    method TotalCartAmount() returns (totalAmount: Option<int>)
      requires Valid()
      ensures totalAmount == Amount(cartItems.keys, cartItems.qty, products)
    {
      var total := 0;
      var i := 0;
      while i < |cartItems.keys|
        invariant 0 <= i <= |cartItems.keys|
        invariant Amount(cartItems.keys[..i], cartItems.qty, products) == Some(total)
      {
        var key := cartItems.keys[i];
        assert cartItems.keys[..i + 1][..i] == cartItems.keys[..i];
        var itemInfo := FindProduct(products, key);
        if cartItems.qty[key] > 0 {
          if itemInfo.None? {
            NoAmountPersists(cartItems.keys, cartItems.qty, products, i + 1);
            return None;
          }
          total := total + cartItems.qty[key] * itemInfo.value.offerPrice;
        }
        i := i + 1;
      }
      assert cartItems.keys[..i] == cartItems.keys;
      totalAmount := Some(total);
    }
  }
}
