/**
  The cart page (client/src/pages/Cart.jsx): the rows it shows, the shipping
  rule and displayed total, the payment selector, and the order it sends.
  Server answers are parameters.
 */
module CartPage {
  import opened Js
  import opened ClientCatalog
  import opened CartStore
  import opened OrderSchema
  import OrderController

  const ShippingFee: int := 30000
  const FreeShippingThreshold: int := 500000

  /** The shipping fee for a subtotal. */
  function Shipping(subtotal: int): (fee: int)
    ensures fee == 0 <==> subtotal >= FreeShippingThreshold
    ensures fee != 0 ==> fee == ShippingFee
  {
    if subtotal >= FreeShippingThreshold then 0 else ShippingFee
  }

  /** The "Total Amount" line: subtotal plus shipping. */
  function DisplayedTotal(subtotal: int): int
  {
    subtotal + Shipping(subtotal)
  }

  /** The displayed total is the subtotal plus at most the fee, and the fee
      goes at the threshold, so a cart just under it shows a larger total
      than one at it. */
  lemma DisplayedTotalBounds(subtotal: int)
    ensures subtotal <= DisplayedTotal(subtotal) <= subtotal + ShippingFee
    ensures subtotal >= FreeShippingThreshold <==> DisplayedTotal(subtotal) == subtotal
    ensures DisplayedTotal(FreeShippingThreshold - 1) > DisplayedTotal(FreeShippingThreshold)
  {
  }

  // ---------------------------------------------------------------------------
  // The component's first declarations, in the order they run

  /** A `const` declaration of the component body: the names it binds and the
      names its initialiser reads while it runs. Declaring an arrow function
      reads nothing; calling it reads what its body reads. */
  datatype Declaration = Declaration(binds: set<string>, uses: set<string>)

  /** The names bound by the declarations before position `i`. */
  function BoundBefore(decls: seq<Declaration>, i: nat): set<string>
    requires i <= |decls|
  {
    if i == 0 then {} else BoundBefore(decls, i - 1) + decls[i - 1].binds
  }

  /** Declaration `i` reads a name of the body that is bound only later (or
      by itself): a read in the temporal dead zone, which throws a
      ReferenceError. */
  predicate EarlyRead(decls: seq<Declaration>, i: nat)
    requires i < |decls|
  {
    (decls[i].uses * BoundBefore(decls, |decls|)) - BoundBefore(decls, i) != {}
  }

  /** The position of the first declaration at or after `i` that throws, if any. */
  function ThrowsAt(decls: seq<Declaration>, i: nat): (r: Option<nat>)
    requires i <= |decls|
    ensures r.Some? ==> i <= r.value < |decls| && EarlyRead(decls, r.value)
    ensures r.Some? ==> forall j :: i <= j < r.value ==> !EarlyRead(decls, j)
    decreases |decls| - i
  {
    if i == |decls| then None
    else if EarlyRead(decls, i) then Some(i)
    else ThrowsAt(decls, i + 1)
  }

  /** The body runs through exactly when no declaration reads a name before
      it is bound. */
  lemma {:induction false} RunsThroughIff(decls: seq<Declaration>, i: nat)
    requires i <= |decls|
    ensures ThrowsAt(decls, i).None? <==> forall j :: i <= j < |decls| ==> !EarlyRead(decls, j)
    decreases |decls| - i
  {
    if i < |decls| && !EarlyRead(decls, i) {
      RunsThroughIff(decls, i + 1);
    }
  }

  /** What `useAppContext()` is destructured into. */
  const ContextNames: set<string> :=
    {"products", "navigate", "cartCount", "totalCartAmount", "cartItems", "setCartItems",
     "removeFromCart", "updateCartItem", "axios", "user", "backendUrl"}

  /** `const {…} = useAppContext()` */
  const ReadContext: Declaration := Declaration(ContextNames, {"useAppContext"})

  /** `const computedShipping = cartSubtotal() >= … ? 0 : …`: the call runs
      `totalCartAmount()`. */
  const ComputeShipping: Declaration :=
    Declaration({"computedShipping"}, {"cartSubtotal", "totalCartAmount", "FREE_SHIPPING_THRESHOLD", "SHIPPING_FEE"})

  /** The two constants and the `cartSubtotal` arrow function. */
  const ShippingConstants: seq<Declaration> :=
    [Declaration({"SHIPPING_FEE"}, {}), Declaration({"FREE_SHIPPING_THRESHOLD"}, {}), Declaration({"cartSubtotal"}, {})]

  /** The component's first declarations as written: the shipping is
      computed before the context is read. */
  const CartBodyAsWritten: seq<Declaration> := ShippingConstants + [ComputeShipping, ReadContext]

  /** The same declarations with the context read first. */
  const CartBodyReordered: seq<Declaration> := [ReadContext] + ShippingConstants + [ComputeShipping]

  /** As written, the shipping line reads `totalCartAmount` before the
      destructuring binds it, so every render throws there. */
  lemma RenderThrows()
    ensures ThrowsAt(CartBodyAsWritten, 0) == Some(3)
  {
    var decls := CartBodyAsWritten;
    assert decls[0] == Declaration({"SHIPPING_FEE"}, {});
    assert decls[1] == Declaration({"FREE_SHIPPING_THRESHOLD"}, {});
    assert decls[2] == Declaration({"cartSubtotal"}, {});
    assert decls[3] == ComputeShipping && decls[4] == ReadContext;
    assert BoundBefore(decls, 1) == {"SHIPPING_FEE"};
    assert BoundBefore(decls, 2) == {"SHIPPING_FEE", "FREE_SHIPPING_THRESHOLD"};
    assert BoundBefore(decls, 3) == {"SHIPPING_FEE", "FREE_SHIPPING_THRESHOLD", "cartSubtotal"};
    assert BoundBefore(decls, 4) == BoundBefore(decls, 3) + {"computedShipping"};
    assert "totalCartAmount" in BoundBefore(decls, 5);
    assert "totalCartAmount" !in BoundBefore(decls, 3);
    assert EarlyRead(decls, 3);
    assert !EarlyRead(decls, 0) && !EarlyRead(decls, 1) && !EarlyRead(decls, 2);
    assert ThrowsAt(decls, 3) == Some(3);
    assert ThrowsAt(decls, 2) == Some(3);
    assert ThrowsAt(decls, 1) == Some(3);
  }

  /** With the context read first, the body runs through. */
  lemma ReorderedRuns()
    ensures ThrowsAt(CartBodyReordered, 0).None?
  {
    var decls := CartBodyReordered;
    ReorderedBindings();
    assert decls[0] == ReadContext && decls[4] == ComputeShipping;
    assert decls[1].uses == {} && decls[2].uses == {} && decls[3].uses == {};
    assert "useAppContext" !in BoundBefore(decls, 5);
    assert ComputeShipping.uses <= BoundBefore(decls, 4);
    RunsThroughIff(decls, 0);
  }

  /** The names bound before the shipping line, and in all, once the
      context is read first. */
  lemma ReorderedBindings()
    ensures BoundBefore(CartBodyReordered, 4)
            == ContextNames + {"SHIPPING_FEE", "FREE_SHIPPING_THRESHOLD", "cartSubtotal"}
    ensures BoundBefore(CartBodyReordered, 5) == BoundBefore(CartBodyReordered, 4) + {"computedShipping"}
  {
    var decls := CartBodyReordered;
    assert decls[0] == ReadContext && decls[4] == ComputeShipping;
    assert decls[1] == Declaration({"SHIPPING_FEE"}, {});
    assert decls[2] == Declaration({"FREE_SHIPPING_THRESHOLD"}, {});
    assert decls[3] == Declaration({"cartSubtotal"}, {});
    assert BoundBefore(decls, 1) == ContextNames;
    assert BoundBefore(decls, 2) == ContextNames + {"SHIPPING_FEE"};
    assert BoundBefore(decls, 3) == ContextNames + {"SHIPPING_FEE", "FREE_SHIPPING_THRESHOLD"};
  }

  /** A row of the cart table: a loaded product with its quantity. */
  datatype CartRow = CartRow(product: Product, quantity: int)

  /** The rows getCart builds: one per cart key that names a loaded product,
      in key order, with the cart's quantity. */
  function Rows(keys: seq<string>, qty: map<string, int>, products: seq<Product>): (rows: seq<CartRow>)
    requires forall k :: k in keys ==> k in qty
    ensures |rows| <= |keys|
  {
    if keys == [] then []
    else
      var k := keys[|keys| - 1];
      var rows := Rows(keys[..|keys| - 1], qty, products);
      match FindProduct(products, k)
      case None => rows
      case Some(p) => rows + [CartRow(p, qty[k])]
  }

  /** Each row is a cart key's loaded product with that key's quantity. */
  lemma {:induction false} RowsFaithful(keys: seq<string>, qty: map<string, int>, products: seq<Product>)
    requires forall k :: k in keys ==> k in qty
    ensures forall i :: 0 <= i < |Rows(keys, qty, products)| ==>
              var row := Rows(keys, qty, products)[i];
              && row.product.id in keys
              && FindProduct(products, row.product.id) == Some(row.product)
              && row.quantity == qty[row.product.id]
  {
    if keys != [] {
      var init := keys[..|keys| - 1];
      RowsFaithful(init, qty, products);
      assert forall k :: k in init ==> k in keys;
    }
  }

  /** Every cart key that names a loaded product has a row. */
  lemma {:induction false} RowsComplete(keys: seq<string>, qty: map<string, int>, products: seq<Product>, k: string)
    requires forall k :: k in keys ==> k in qty
    requires k in keys && FindProduct(products, k).Some?
    ensures exists i :: 0 <= i < |Rows(keys, qty, products)| && Rows(keys, qty, products)[i].product.id == k
  {
    var init, last := keys[..|keys| - 1], keys[|keys| - 1];
    var rows := Rows(init, qty, products);
    if last == k {
      var p := FindProduct(products, k).value;
      assert p.id == k;
      assert Rows(keys, qty, products)[|rows|].product.id == k;
    } else {
      assert keys == init + [last];
      RowsComplete(init, qty, products, k);
      var i :| 0 <= i < |rows| && rows[i].product.id == k;
      assert Rows(keys, qty, products)[i] == rows[i];
    }
  }

  /** The rows follow the cart's key order. */
  lemma {:induction false} RowsInCartOrder(keys: seq<string>, qty: map<string, int>, products: seq<Product>)
    requires forall k :: k in keys ==> k in qty
    ensures SubsequenceOf(RowIds(Rows(keys, qty, products)), keys)
  {
    if keys != [] {
      var init, k := keys[..|keys| - 1], keys[|keys| - 1];
      var rows := Rows(init, qty, products);
      RowsInCartOrder(init, qty, products);
      assert keys == init + [k];
      match FindProduct(products, k)
      case None =>
        SubsequenceExtend(RowIds(rows), init, k);
      case Some(p) =>
        assert p.id == k;
        assert RowIds(rows + [CartRow(p, qty[k])]) == RowIds(rows) + [k];
        SubsequenceAppend(RowIds(rows), init, k);
    }
  }

  /** The product ids of some rows. */
  function RowIds(rows: seq<CartRow>): (ids: seq<string>)
    ensures |ids| == |rows| && forall i :: 0 <= i < |rows| ==> ids[i] == rows[i].product.id
  {
    seq(|rows|, i requires 0 <= i < |rows| => rows[i].product.id)
  }

  /** The body of the order request: one item per row and the address id. */
  datatype Payload = Payload(items: seq<OrderItem>, address: JsValue)

  /** The items of the order request, one per row. */
  function PayloadItems(rows: seq<CartRow>): (items: seq<OrderItem>)
    ensures |items| == |rows|
    ensures forall i :: 0 <= i < |rows| ==> items[i] == OrderItem(rows[i].product.id, Some(rows[i].quantity))
  {
    seq(|rows|, i requires 0 <= i < |rows| => OrderItem(rows[i].product.id, Some(rows[i].quantity)))
  }

  /** placeOrder's guard and body: no request without a selected address
      that has an `_id`. */
  function OrderPayload(rows: seq<CartRow>, selectedAddress: JsValue): (r: Option<Payload>)
    ensures r.None? <==> !Truthy(selectedAddress) || !Truthy(Get(selectedAddress, "_id"))
    ensures r.Some? ==> r.value.items == PayloadItems(rows) && r.value.address == Get(selectedAddress, "_id")
  {
    if !Truthy(selectedAddress) || !Truthy(Get(selectedAddress, "_id")) then None
    else Some(Payload(PayloadItems(rows), Get(selectedAddress, "_id")))
  }

  /** When every cart key names a loaded product with a positive quantity and
      the server's prices are the loaded ones, the server prices the page's
      order at the subtotal the page shows (before the server's surcharge and
      the page's shipping). */
  lemma {:induction false} PageSubtotalIsServerSubtotal(keys: seq<string>, qty: map<string, int>, products: seq<Product>,
                                                         catalog: map<string, int>)
    requires forall k :: k in keys ==> k in qty
    requires forall k :: k in keys ==>
               (&& k != "" && qty[k] > 0 && FindProduct(products, k).Some?
                && k in catalog && catalog[k] == FindProduct(products, k).value.offerPrice)
    ensures Amount(keys, qty, products).Some?
    ensures OrderController.Subtotal(PayloadItems(Rows(keys, qty, products)), catalog, true)
            == OrderController.Priced(Amount(keys, qty, products).value)
  {
    if keys != [] {
      var init, k := keys[..|keys| - 1], keys[|keys| - 1];
      assert forall x :: x in init ==> x in keys;
      PageSubtotalIsServerSubtotal(init, qty, products, catalog);
      assert k in keys;
      PageSubtotalStep(keys, qty, products, catalog, Amount(init, qty, products).value);
    }
  }

  /** The last cart key adds the same row to the page and the same item to
      the server's order. */
  lemma PageSubtotalStep(keys: seq<string>, qty: map<string, int>, products: seq<Product>,
                         catalog: map<string, int>, t: int)
    requires keys != [] && forall k :: k in keys ==> k in qty
    requires Amount(keys[..|keys| - 1], qty, products) == Some(t)
    requires OrderController.Subtotal(PayloadItems(Rows(keys[..|keys| - 1], qty, products)), catalog, true)
             == OrderController.Priced(t)
    requires var k := keys[|keys| - 1];
             k != "" && qty[k] > 0 && FindProduct(products, k).Some?
             && k in catalog && catalog[k] == FindProduct(products, k).value.offerPrice
    ensures Amount(keys, qty, products).Some?
    ensures OrderController.Subtotal(PayloadItems(Rows(keys, qty, products)), catalog, true)
            == OrderController.Priced(Amount(keys, qty, products).value)
  {
    var k := keys[|keys| - 1];
    var p := FindProduct(products, k).value;
    var rows := Rows(keys[..|keys| - 1], qty, products);
    LastRowFound(keys, qty, products);
    LastAmountFound(keys, qty, products, t);
    ServerSubtotalStep(rows, p, qty[k], catalog, t);
    var total := t + qty[k] * p.offerPrice;
    assert Amount(keys, qty, products) == Some(total);
    assert Rows(keys, qty, products) == rows + [CartRow(p, qty[k])];
  }

  /** A last key with a positive quantity naming a loaded product adds its
      line to the amount. */
  lemma LastAmountFound(keys: seq<string>, qty: map<string, int>, products: seq<Product>, t: int)
    requires keys != [] && forall k :: k in keys ==> k in qty
    requires Amount(keys[..|keys| - 1], qty, products) == Some(t)
    requires qty[keys[|keys| - 1]] > 0 && FindProduct(products, keys[|keys| - 1]).Some?
    ensures Amount(keys, qty, products)
            == Some(t + qty[keys[|keys| - 1]] * FindProduct(products, keys[|keys| - 1]).value.offerPrice)
  {
    var init := keys[..|keys| - 1];
    assert forall j :: j in init ==> j in keys;
  }

  /** A last key naming a loaded product adds that product's row. */
  lemma LastRowFound(keys: seq<string>, qty: map<string, int>, products: seq<Product>)
    requires keys != [] && forall k :: k in keys ==> k in qty
    requires FindProduct(products, keys[|keys| - 1]).Some?
    ensures var p := FindProduct(products, keys[|keys| - 1]).value;
            p.id == keys[|keys| - 1]
            && Rows(keys, qty, products) == Rows(keys[..|keys| - 1], qty, products) + [CartRow(p, qty[keys[|keys| - 1]])]
  {
  }

  /** One more row adds its quantity times its price to the server's subtotal. */
  lemma ServerSubtotalStep(rows: seq<CartRow>, p: Product, q: int, catalog: map<string, int>, t: int)
    requires OrderController.Subtotal(PayloadItems(rows), catalog, true) == OrderController.Priced(t)
    requires p.id != "" && q != 0 && p.id in catalog && catalog[p.id] == p.offerPrice
    ensures OrderController.Subtotal(PayloadItems(rows + [CartRow(p, q)]), catalog, true)
            == OrderController.Priced(t + q * p.offerPrice)
  {
    var items := PayloadItems(rows + [CartRow(p, q)]);
    assert items[..|items| - 1] == PayloadItems(rows);
    assert items[|items| - 1] == OrderItem(p.id, Some(q));
    assert catalog[p.id] * q == q * p.offerPrice;
  }

  /** The payment selector's handler: "Online" is refused and the option
      stays as it was. */
  function SelectPayment(current: string, value: string): (next: string)
    ensures value == "Online" ==> next == current
    ensures value != "Online" ==> next == value
  {
    if value == "Online" then current else value
  }

  /** The payment option after a series of selections. */
  function AfterSelections(start: string, values: seq<string>): string
  {
    if values == [] then start else SelectPayment(AfterSelections(start, values[..|values| - 1]), values[|values| - 1])
  }

  /** Starting from "COD", no series of selections reaches "Online", so the
      page never sends the Stripe request. */
  lemma {:induction false} NeverOnline(values: seq<string>)
    ensures AfterSelections("COD", values) != "Online"
  {
    if values != [] {
      NeverOnline(values[..|values| - 1]);
    }
  }

  /** The order request the page sends. */
  datatype Request = PostCod(body: Payload) | PostStripe(body: Payload)

  /** `Object.keys(v).length` for a value that is truthy. */
  function KeyCount(v: JsValue): nat
  {
    match v
    case Obj(fields) => |fields.Keys|
    case Arr(elems) => |elems|
    case Str(s) => |s|
    case _ => 0
  }

  /** The page's own state. */
  class CartPageState {
    var paymentOption: string
    var selectedAddress: JsValue
    var cartArray: seq<CartRow>

    constructor ()
      ensures paymentOption == "COD" && selectedAddress == Null && cartArray == []
    {
      paymentOption := "COD";
      selectedAddress := Null;
      cartArray := [];
    }

    method SelectPaymentOption(value: string)
      modifies this
      ensures paymentOption == SelectPayment(old(paymentOption), value)
      ensures selectedAddress == old(selectedAddress) && cartArray == old(cartArray)
    {
      if value == "Online" {
        return;
      }
      paymentOption := value;
    }

    /** The effect on the context's address: adopt it when it is a truthy
        value with at least one key. */
    method SyncAddress(address: JsValue)
      modifies this
      ensures selectedAddress == if Truthy(address) && KeyCount(address) > 0 then address else old(selectedAddress)
      ensures paymentOption == old(paymentOption) && cartArray == old(cartArray)
    {
      if Truthy(address) && KeyCount(address) > 0 {
        selectedAddress := address;
      }
    }

    /** getCart: walk the cart's keys and keep those naming a loaded product. */
    method GetCart(context: CartContext)
      requires context.Valid()
      modifies this
      ensures cartArray == Rows(context.cartItems.keys, context.cartItems.qty, context.products)
      ensures paymentOption == old(paymentOption) && selectedAddress == old(selectedAddress)
    {
      var keys, qty, products := context.cartItems.keys, context.cartItems.qty, context.products;
      var tempArray: seq<CartRow> := [];
      var i := 0;
      while i < |keys|
        invariant 0 <= i <= |keys|
        invariant tempArray == Rows(keys[..i], qty, products)
      {
        assert keys[..i + 1][..i] == keys[..i];
        var product := FindProduct(products, keys[i]);
        if product.Some? {
          tempArray := tempArray + [CartRow(product.value, qty[keys[i]])];
        }
        i := i + 1;
      }
      assert keys[..i] == keys;
      cartArray := tempArray;
    }

    /** placeOrder: the request sent, if any; a successful COD answer
        empties the cart. */
    method PlaceOrder(context: CartContext, codSucceeded: bool) returns (sent: Option<Request>)
      requires context.Valid()
      modifies context
      ensures context.Valid() && context.products == old(context.products)
      ensures OrderPayload(cartArray, selectedAddress).None? ==> sent == None
      ensures OrderPayload(cartArray, selectedAddress).Some? ==>
                sent == Some(if paymentOption == "COD" then PostCod(OrderPayload(cartArray, selectedAddress).value)
                             else PostStripe(OrderPayload(cartArray, selectedAddress).value))
      ensures context.cartItems == if sent.Some? && sent.value.PostCod? && codSucceeded then EmptyCart
                                   else old(context.cartItems)
    {
      if !Truthy(selectedAddress) || !Truthy(Get(selectedAddress, "_id")) {
        return None;
      }
      var orderPayload := Payload(PayloadItems(cartArray), Get(selectedAddress, "_id"));
      if paymentOption == "COD" {
        sent := Some(PostCod(orderPayload));
        if codSucceeded {
          context.cartItems := EmptyCart;
        }
      } else {
        sent := Some(PostStripe(orderPayload));
      }
    }
  }
}
