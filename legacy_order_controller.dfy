/**
  The older order placement (backend/controller/order.controller.js). Both
  handlers make one combined check of address and items, then price the lines
  with no existence check: a product that is not found makes the pricing
  throw, which the handler answers with 500 before `Order.create` is reached.
  The older copy has no order schema of its own here; the server's schema
  (module OrderSchema) stands in for it.
 */
module LegacyOrderController {
  import opened Js
  import opened OrderSchema
  import opened OrderController
  import opened Http

  /** The decision of either older handler up to `Order.create`. The user id
      and address are stored as given; "" stands for a missing one, which
      `Order.create` then refuses. A product that is not found makes
      `product.offerPrice` throw, and a missing quantity makes the amount NaN,
      which `Order.create` refuses: both are answered 500. */
  function LegacyPlace(user: Option<string>, items: Option<seq<OrderItem>>, address: JsValue,
                       catalog: map<string, int>, online: bool): (r: Outcome<NewOrder>)
    ensures (!Truthy(address) || items.None? || items.value == []) ==> r == Fail(InvalidDetails)
    ensures Truthy(address) && items.Some? && items.value != [] && !Subtotal(items.value, catalog, false).Priced? ==>
              r == Fail(InternalError)
    ensures r.Ok? <==> Truthy(address) && items.Some? && items.value != [] && Subtotal(items.value, catalog, false).Priced?
    ensures r.Ok? ==> && r.value.items == items.value
                      && r.value.paymentType == (if online then Online else Cod)
                      && r.value.isPaid == online
                      && r.value.userId == (if user.Some? then user.value else "")
                      && r.value.address == (if address.Str? then address.s else "")
                      && r.value.amount == WithSurcharge(Subtotal(items.value, catalog, false).subtotal)
  {
    if !Truthy(address) || items.None? || items.value == [] then Fail(InvalidDetails)
    else match Subtotal(items.value, catalog, false)
      case Priced(s) =>
        var owner := if user.Some? then user.value else "";
        var addressId := if address.Str? then address.s else "";
        Ok(NewOrder(owner, items.value, addressId, WithSurcharge(s), if online then Online else Cod, online))
      case _ => Fail(InternalError)
  }

  /** A line whose product is not found turns a well-formed request into a
      500, where the current handlers answer 400 "Product not found". */
  lemma MissingProductIsInternalError(user: Option<string>, items: seq<OrderItem>, address: JsValue,
                                    catalog: map<string, int>, online: bool, k: nat)
    requires Truthy(address) && items != []
    requires k < |items| && items[k].product !in catalog
    ensures LegacyPlace(user, Some(items), address, catalog, online) == Fail(InternalError)
    ensures PlaceOnline(user, Some(items), address, catalog) == Fail(Reply(400, "Product not found"))
  {
    MissingProductRejects(items, catalog, false, k);
  }

  /** The older online total agrees with the current one on every request both accept. */
  lemma SameOnlineTotal(user: Option<string>, items: Option<seq<OrderItem>>, address: JsValue, catalog: map<string, int>)
    requires LegacyPlace(user, items, address, catalog, true).Ok?
    ensures PlaceOnline(user, items, address, catalog) == LegacyPlace(user, items, address, catalog, true)
  {
  }

  /** The placement shared by both older handlers: check, price (the loop of
      the `reduce`), create. */
  method Place(ledger: Ledger, user: Option<string>, items: Option<seq<OrderItem>>, address: JsValue,
               catalog: map<string, int>, online: bool, now: int)
    returns (created: bool, reply: Reply)
    requires ledger.Valid()
    modifies ledger
    ensures ledger.Valid() && Extends(old(ledger.orders), ledger.orders)
    ensures var d := LegacyPlace(user, items, address, catalog, online);
            && created == (d.Ok? && Accepts(d.value))
            && (created ==> ledger.orders == old(ledger.orders)[old(ledger.nextId) := Create(old(ledger.nextId), d.value, now)]
                            && reply == Placed)
            && (!created ==> ledger.orders == old(ledger.orders) && reply == (if d.Fail? then d.reply else InternalError))
  {
    if !Truthy(address) || items.None? || items.value == [] {
      return false, InvalidDetails;
    }
    var priced := ComputeSubtotal(items.value, catalog, false);
    if !priced.Priced? {
      return false, InternalError;
    }
    var amount := priced.subtotal;
    amount := amount + (amount * 2) / 100;
    var owner := if user.Some? then user.value else "";
    var addressId := if address.Str? then address.s else "";
    created := ledger.Insert(NewOrder(owner, items.value, addressId, amount, if online then Online else Cod, online), now);
    reply := if created then Placed else InternalError;
  }

  /** POST of a cash-on-delivery order in the older server. */
  method PlaceOrderCOD(ledger: Ledger, user: Option<string>, items: Option<seq<OrderItem>>, address: JsValue,
                       catalog: map<string, int>, now: int)
    returns (reply: Reply)
    requires ledger.Valid()
    modifies ledger
    ensures ledger.Valid() && Extends(old(ledger.orders), ledger.orders)
    ensures var d := LegacyPlace(user, items, address, catalog, false);
            if d.Ok? && Accepts(d.value) then
              ledger.orders == old(ledger.orders)[old(ledger.nextId) := Create(old(ledger.nextId), d.value, now)]
              && reply == Placed
            else ledger.orders == old(ledger.orders) && reply == (if d.Fail? then d.reply else InternalError)
  {
    var created;
    created, reply := Place(ledger, user, items, address, catalog, false, now);
  }

  /** POST of an online order in the older server: the order is written, paid,
      before the payment session is requested; a provider failure
      (`sessionCreated` false) answers 500 and leaves the order in place. */
  method PlaceOrderStripe(ledger: Ledger, user: Option<string>, items: Option<seq<OrderItem>>, address: JsValue,
                          catalog: map<string, int>, sessionCreated: bool, now: int)
    returns (reply: Reply)
    requires ledger.Valid()
    modifies ledger
    ensures ledger.Valid() && Extends(old(ledger.orders), ledger.orders)
    ensures var d := LegacyPlace(user, items, address, catalog, true);
            if d.Ok? && Accepts(d.value) then
              ledger.orders == old(ledger.orders)[old(ledger.nextId) := Create(old(ledger.nextId), d.value, now)]
              && reply == (if sessionCreated then Placed else InternalError)
            else ledger.orders == old(ledger.orders) && reply == (if d.Fail? then d.reply else InternalError)
  {
    var created;
    created, reply := Place(ledger, user, items, address, catalog, true, now);
    if created && !sessionCreated {
      reply := InternalError;
    }
  }
}
