/**
  Order pricing, placement and the order ledger
  (server/controller/order.controller.js): cash-on-delivery and online
  placement, the customer's cancellation, the seller's status and payment
  updates, and the customer and admin listings.
 */
module OrderController {
  import opened Js
  import opened OrderSchema
  import opened Http

  datatype PriceError = InvalidItem | ProductNotFound

  /** The result of the pricing loop: the subtotal; `NotANumber` when every
      line was let through but some quantity was missing, so that
      `offerPrice * undefined` made the running amount NaN (the loop goes on,
      and a later unknown product still stops it); or the first line it
      rejects. */
  datatype Pricing = Priced(subtotal: int) | NotANumber | Rejected(error: PriceError)

  const Placed: Reply := Reply(201, "Order placed successfully")
  const NoItems: Reply := Reply(400, "No items provided")
  const InvalidAddress: Reply := Reply(400, "Invalid address")
  const AddressNotFound: Reply := Reply(400, "Address not found")
  const InvalidItemReply: Reply := Reply(400, "Invalid item in cart")
  const ProductNotFoundReply: Reply := Reply(400, "Product not found")
  const InvalidDetails: Reply := Reply(400, "Invalid order details")

  // ---------------------------------------------------------------------------
  // Pricing

  /** `item?.product && item?.quantity`: the line names a product and has a
      truthy quantity. */
  predicate WellFormedLine(it: OrderItem)
  {
    it.product != "" && it.quantity.Some? && it.quantity.value != 0
  }

  /** A line the loop lets through: its product is in the batch, and with
      `checkFields` it is well formed. */
  predicate LineAccepted(it: OrderItem, catalog: map<string, int>, checkFields: bool)
  {
    it.product in catalog && (checkFields ==> WellFormedLine(it))
  }

  /** The pricing loop's meaning, line by line from the first: with
      `checkFields` a line that is not well formed is rejected, and a product
      id missing from the batch-fetched `catalog` (id to offer price) is
      rejected; otherwise the subtotal is the sum of offerPrice * quantity,
      NaN once a quantity is missing. The field check also catches a missing
      quantity, so only the unchecked loop can end in NaN. */
  function Subtotal(items: seq<OrderItem>, catalog: map<string, int>, checkFields: bool): (r: Pricing)
    ensures checkFields ==> !r.NotANumber?
    decreases |items|
  {
    if items == [] then Priced(0)
    else
      var it := items[|items| - 1];
      var prefix := Subtotal(items[..|items| - 1], catalog, checkFields);
      if prefix.Rejected? then prefix
      else if checkFields && !WellFormedLine(it) then Rejected(InvalidItem)
      else if it.product !in catalog then Rejected(ProductNotFound)
      else if prefix.NotANumber? || it.quantity.None? then NotANumber
      else Priced(prefix.subtotal + catalog[it.product] * it.quantity.value)
  }

  /** The loop gets past every line exactly when every line is let through,
      and it ends with a number exactly when, besides, every quantity is there. */
  lemma {:induction false} SubtotalSucceedsIff(items: seq<OrderItem>, catalog: map<string, int>, checkFields: bool)
    ensures !Subtotal(items, catalog, checkFields).Rejected? <==>
            forall i :: 0 <= i < |items| ==> LineAccepted(items[i], catalog, checkFields)
    ensures Subtotal(items, catalog, checkFields).Priced? <==>
            forall i :: 0 <= i < |items| ==> LineAccepted(items[i], catalog, checkFields) && items[i].quantity.Some?
    decreases |items|
  {
    if items != [] {
      var init := items[..|items| - 1];
      SubtotalSucceedsIff(init, catalog, checkFields);
      assert forall i :: 0 <= i < |init| ==> init[i] == items[i];
    }
  }

  /** A missing product stops the loop with "Product not found" (or with an
      earlier line's error), never with a subtotal. */
  lemma MissingProductRejects(items: seq<OrderItem>, catalog: map<string, int>, checkFields: bool, k: nat)
    requires k < |items| && items[k].product !in catalog
    ensures Subtotal(items, catalog, checkFields).Rejected?
  {
    SubtotalSucceedsIff(items, catalog, checkFields);
  }

  /** The error the loop stops with is the one of the first line it does not
      let through: "Invalid item in cart" when that line is malformed and the
      fields are checked, "Product not found" otherwise. */
  lemma RejectionIsFirstBadLine(items: seq<OrderItem>, catalog: map<string, int>, checkFields: bool, k: nat)
    requires k < |items| && !LineAccepted(items[k], catalog, checkFields)
    requires forall j :: 0 <= j < k ==> LineAccepted(items[j], catalog, checkFields)
    ensures Subtotal(items, catalog, checkFields)
            == Rejected(if checkFields && !WellFormedLine(items[k]) then InvalidItem else ProductNotFound)
  {
    var prefix := items[..k + 1];
    assert prefix[..k] == items[..k];
    SubtotalSucceedsIff(items[..k], catalog, checkFields);
    RejectedPrefixRejects(items, catalog, checkFields, k + 1);
  }

  /** `amount += Math.floor((amount * 2) / 100)`: the flat 2% surcharge. For a
      non-negative subtotal the total lies between the subtotal and the
      subtotal plus a fiftieth of it. */
  function WithSurcharge(subtotal: int): (amount: int)
    ensures subtotal >= 0 ==> subtotal <= amount <= subtotal + subtotal / 50
    ensures subtotal >= 0 ==> amount == subtotal + subtotal / 50
    ensures subtotal >= 0 ==> 50 * (amount - subtotal) <= subtotal < 50 * (amount - subtotal + 1)
  {
    subtotal + (subtotal * 2) / 100
  }

  /** The pricing loop of the placement handlers: it walks the lines in order,
      returns at the first rejected one, and otherwise accumulates the
      subtotal, which stays NaN once a quantity is missing. */
  method ComputeSubtotal(items: seq<OrderItem>, catalog: map<string, int>, checkFields: bool)
    returns (r: Pricing)
    ensures r == Subtotal(items, catalog, checkFields)
  {
    var amount := 0;
    var nan := false;
    var i := 0;
    while i < |items|
      invariant 0 <= i <= |items|
      invariant Subtotal(items[..i], catalog, checkFields) == if nan then NotANumber else Priced(amount)
    {
      var it := items[i];
      assert items[..i + 1][..i] == items[..i];
      if checkFields && !WellFormedLine(it) {
        RejectedPrefixRejects(items, catalog, checkFields, i + 1);
        return Rejected(InvalidItem);
      }
      if it.product !in catalog {
        RejectedPrefixRejects(items, catalog, checkFields, i + 1);
        return Rejected(ProductNotFound);
      }
      if it.quantity.None? {
        nan := true;
      } else {
        amount := amount + catalog[it.product] * it.quantity.value;
      }
      i := i + 1;
    }
    assert items[..i] == items;
    r := if nan then NotANumber else Priced(amount);
  }

  /** Once a prefix is rejected, the whole list is rejected with the same error. */
  lemma {:induction false} RejectedPrefixRejects(items: seq<OrderItem>, catalog: map<string, int>, checkFields: bool, k: nat)
    requires k <= |items| && Subtotal(items[..k], catalog, checkFields).Rejected?
    ensures Subtotal(items, catalog, checkFields) == Subtotal(items[..k], catalog, checkFields)
    decreases |items| - k
  {
    if k < |items| {
      assert items[..k + 1][..k] == items[..k];
      RejectedPrefixRejects(items, catalog, checkFields, k + 1);
    } else {
      assert items[..k] == items;
    }
  }

  // ---------------------------------------------------------------------------
  // Request checks and identity

  /** The address id of a cash-on-delivery request: an object contributes
      `_id || id`, anything else itself; only a non-empty string is an id. */
  function AddressIdOf(address: JsValue): (r: Option<string>)
    ensures r.Some? ==> r.value != ""
    ensures address.Str? ==> r == (if address.s == "" then None else Some(address.s))
    ensures !address.Str? && !address.Obj? ==> r == None
  {
    var candidate := if IsObject(address) then Or(Get(address, "_id"), Get(address, "id")) else address;
    if candidate.Str? && candidate.s != "" then Some(candidate.s) else None
  }

  /** Sending `{_id: x}`, `{id: x}` or `x` itself names the same address. */
  lemma AddressForms(x: string)
    ensures AddressIdOf(Obj(map["_id" := Str(x)])) == AddressIdOf(Str(x))
    ensures AddressIdOf(Obj(map["id" := Str(x)])) == AddressIdOf(Str(x))
  {
  }

  /** The prefix that marks a guest's owner id. */
  const GuestPrefix: string := "guest:"

  /** The order's owner: the authenticated user id when there is one, else
      the guest id derived from the address's email. */
  function OwnerId(user: Option<string>, address: StoredAddress): (r: string)
    ensures r != ""
    ensures user.Some? && user.value != "" ==> r == user.value
    ensures !(user.Some? && user.value != "") ==> StartsWith(r, GuestPrefix) && r[|GuestPrefix|..] == address.email
  {
    if user.Some? && user.value != "" then user.value else GuestPrefix + address.email
  }

  /** Two guest orders with the same email get the same owner, and guests with
      different emails never share one. */
  lemma GuestIdentity(a: StoredAddress, b: StoredAddress)
    ensures OwnerId(None, a) == OwnerId(None, b) <==> a.email == b.email
  {
    if OwnerId(None, a) == OwnerId(None, b) {
      assert a.email == OwnerId(None, a)[|GuestPrefix|..];
    }
  }

  /** The cash-on-delivery handler's decision: the checks in their order
      (items, address id, address lookup, each line) and the order it creates. */
  function PlaceCod(user: Option<string>, items: Option<seq<OrderItem>>, address: JsValue,
                    addresses: map<string, StoredAddress>, catalog: map<string, int>): (r: Outcome<NewOrder>)
    ensures (items.None? || items.value == []) ==> r == Fail(NoItems)
    ensures items.Some? && items.value != [] && AddressIdOf(address).None? ==> r == Fail(InvalidAddress)
    ensures items.Some? && items.value != [] && AddressIdOf(address).Some? && AddressIdOf(address).value !in addresses ==>
              r == Fail(AddressNotFound)
    ensures && items.Some? && items.value != [] && AddressIdOf(address).Some? && AddressIdOf(address).value in addresses
            && Subtotal(items.value, catalog, true).Rejected? ==>
              r == Fail(Reply(400, if Subtotal(items.value, catalog, true).error == InvalidItem
                                   then "Invalid item in cart" else "Product not found"))
    ensures r.Ok? <==> && items.Some? && items.value != [] && AddressIdOf(address).Some?
                       && AddressIdOf(address).value in addresses && Subtotal(items.value, catalog, true).Priced?
    ensures r.Ok? ==> && r.value.items == items.value
                      && r.value.paymentType == Cod && !r.value.isPaid
                      && AddressIdOf(address) == Some(r.value.address)
                      && r.value.userId == OwnerId(user, addresses[r.value.address])
                      && r.value.amount == WithSurcharge(Subtotal(items.value, catalog, true).subtotal)
    ensures r.Ok? ==> Accepts(r.value)
  {
    if items.None? || items.value == [] then Fail(NoItems)
    else match AddressIdOf(address)
      case None => Fail(InvalidAddress)
      case Some(addressId) =>
        if addressId !in addresses then Fail(AddressNotFound)
        else
          var owner := OwnerId(user, addresses[addressId]);
          match Subtotal(items.value, catalog, true)
          case Rejected(InvalidItem) => Fail(InvalidItemReply)
          case Rejected(ProductNotFound) => Fail(ProductNotFoundReply)
          case Priced(s) =>
            SubtotalSucceedsIff(items.value, catalog, true);
            Ok(NewOrder(owner, items.value, addressId, WithSurcharge(s), Cod, false))
  }

  /** The online (Stripe) handler's decision up to `Order.create`: a falsy
      address or a missing or empty item list is rejected, then only a product
      missing from the batch is; the order is created paid. A missing
      quantity makes the amount NaN, which `Order.create` refuses: 500 and
      nothing written. The user id and a string address are stored as given;
      any other address is stored as the empty reference, which `Order.create`
      refuses. Mongoose would instead store an object's `_id`. */
  function PlaceOnline(user: Option<string>, items: Option<seq<OrderItem>>, address: JsValue,
                       catalog: map<string, int>): (r: Outcome<NewOrder>)
    ensures (!Truthy(address) || items.None? || items.value == []) ==> r == Fail(InvalidDetails)
    ensures Truthy(address) && items.Some? && items.value != [] && Subtotal(items.value, catalog, false).Rejected? ==>
              r == Fail(ProductNotFoundReply)
    ensures Truthy(address) && items.Some? && items.value != [] && Subtotal(items.value, catalog, false).NotANumber? ==>
              r == Fail(InternalError)
    ensures r.Ok? <==> Truthy(address) && items.Some? && items.value != [] && Subtotal(items.value, catalog, false).Priced?
    ensures r.Ok? ==> && r.value.items == items.value
                      && r.value.paymentType == Online && r.value.isPaid
                      && r.value.userId == (if user.Some? then user.value else "")
                      && r.value.address == (if address.Str? then address.s else "")
                      && r.value.amount == WithSurcharge(Subtotal(items.value, catalog, false).subtotal)
  {
    if !Truthy(address) || items.None? || items.value == [] then Fail(InvalidDetails)
    else match Subtotal(items.value, catalog, false)
      case Rejected(_) => Fail(ProductNotFoundReply)
      case NotANumber => Fail(InternalError)
      case Priced(s) =>
        var owner := if user.Some? then user.value else "";
        var addressId := if address.Str? then address.s else "";
        Ok(NewOrder(owner, items.value, addressId, WithSurcharge(s), Online, true))
  }

  // ---------------------------------------------------------------------------
  // Cancellation

  /** Statuses from which a customer may no longer cancel. */
  predicate NotCancellable(status: string)
  {
    status == "Shipped" || status == "Delivered" || status == "Cancelled"
  }

  /** The cancel handler's answer for `caller` on the ledger `orders`. */
  function CancelReply(orders: map<nat, Order>, caller: string, orderId: nat): (r: Reply)
    ensures r.status == 200 <==>
            orderId in orders && orders[orderId].userId == caller && !NotCancellable(orders[orderId].status)
    ensures r.status == 404 <==> orderId !in orders
    ensures r.status == 403 <==> orderId in orders && orders[orderId].userId != caller
    ensures r.status == 400 <==> orderId in orders && orders[orderId].userId == caller && NotCancellable(orders[orderId].status)
  {
    if orderId !in orders then Reply(404, "Order not found")
    else
      var o := orders[orderId];
      if o.userId != caller then Reply(403, "Forbidden")
      else if o.status != "" && NotCancellable(o.status) then
        Reply(400, "Order cannot be cancelled in " + o.status + " status")
      else Reply(200, "Order cancelled")
  }

  // ---------------------------------------------------------------------------
  // Listings

  /** The orders with id below `below` that `keep` selects, newest (highest id) first. */
  function Listed(orders: map<nat, Order>, keep: Order -> bool, below: nat): seq<Order>
    decreases below
  {
    if below == 0 then []
    else
      var id := below - 1;
      var rest := Listed(orders, keep, id);
      if id in orders && keep(orders[id]) then [orders[id]] + rest else rest
  }

  /** Every record of `orders` carries its own key as id. */
  ghost predicate KeyedById(orders: map<nat, Order>)
  {
    forall id :: id in orders ==> orders[id].id == id
  }

  /** A listing holds exactly the selected records below the bound, each once,
      newest first. */
  lemma {:induction false} ListedExactly(orders: map<nat, Order>, keep: Order -> bool, below: nat)
    requires KeyedById(orders)
    ensures forall i :: 0 <= i < |Listed(orders, keep, below)| ==>
              var o := Listed(orders, keep, below)[i];
              o.id < below && o.id in orders && orders[o.id] == o && keep(o)
    ensures forall i, j :: 0 <= i < j < |Listed(orders, keep, below)| ==>
              Listed(orders, keep, below)[i].id > Listed(orders, keep, below)[j].id
    ensures forall id :: 0 <= id < below && id in orders && keep(orders[id]) ==> orders[id] in Listed(orders, keep, below)
    decreases below
  {
    if below > 0 {
      var id := below - 1;
      ListedExactly(orders, keep, id);
    }
  }

  function OwnVisible(caller: string): Order -> bool
  {
    o => Visible(o) && o.userId == caller
  }

  function AnyVisible(): Order -> bool
  {
    o => Visible(o)
  }

  // ---------------------------------------------------------------------------
  // The ledger

  /** Fields that no handler changes once the order exists. */
  ghost predicate Settled(before: Order, after: Order)
  {
    && after.id == before.id && after.userId == before.userId && after.items == before.items
    && after.address == before.address && after.amount == before.amount
    && after.paymentType == before.paymentType && after.createdAt == before.createdAt
  }

  /** The ledger only grows, and what it held keeps its settled fields. */
  ghost predicate Extends(before: map<nat, Order>, after: map<nat, Order>)
  {
    forall id :: id in before ==> id in after && Settled(before[id], after[id])
  }

  /** The orders collection. `nextId` stands for the database's id allocation:
      every stored id is below it, and ids grow in creation order. */
  class Ledger {
    var orders: map<nat, Order>
    var nextId: nat

    ghost predicate Valid()
      reads this
    {
      && KeyedById(orders)
      && (forall id :: id in orders ==> id < nextId)
      && (forall id :: id in orders ==> Accepts(NewOrder(orders[id].userId, orders[id].items,
            orders[id].address, orders[id].amount, orders[id].paymentType, orders[id].isPaid)))
    }

    constructor ()
      ensures Valid() && orders == map[] && nextId == 0
    {
      orders := map[];
      nextId := 0;
    }

    /** `Order.create`: stores the draft with its defaults, or refuses it
        (a validation error, answered 500 by every handler) and stores nothing. */
    method Insert(d: NewOrder, now: int) returns (ok: bool)
      requires Valid()
      modifies this
      ensures Valid()
      ensures ok == Accepts(d)
      ensures ok ==> orders == old(orders)[old(nextId) := Create(old(nextId), d, now)] && nextId == old(nextId) + 1
      ensures !ok ==> orders == old(orders) && nextId == old(nextId)
      ensures Extends(old(orders), orders)
    {
      ok := Accepts(d);
      if ok {
        orders := orders[nextId := Create(nextId, d, now)];
        nextId := nextId + 1;
      }
    }

    /** POST /cod. Every rejection comes before `Order.create`, so a failed
        placement writes nothing; a successful one writes exactly one order. */
    method PlaceOrderCOD(user: Option<string>, items: Option<seq<OrderItem>>, address: JsValue,
                         addresses: map<string, StoredAddress>, catalog: map<string, int>, now: int)
      returns (reply: Reply)
      requires Valid()
      modifies this
      ensures Valid() && Extends(old(orders), orders)
      ensures PlaceCod(user, items, address, addresses, catalog).Ok? ==>
                reply == Placed
                && orders == old(orders)[old(nextId) := Create(old(nextId), PlaceCod(user, items, address, addresses, catalog).value, now)]
      ensures PlaceCod(user, items, address, addresses, catalog).Fail? ==>
                reply == PlaceCod(user, items, address, addresses, catalog).reply && orders == old(orders)
    {
      if items.None? || items.value == [] {
        return NoItems;
      }
      var addressId := AddressIdOf(address);
      if addressId.None? {
        return InvalidAddress;
      }
      if addressId.value !in addresses {
        return AddressNotFound;
      }
      var owner := OwnerId(user, addresses[addressId.value]);
      var priced := ComputeSubtotal(items.value, catalog, true);
      if priced.Rejected? {
        return if priced.error == InvalidItem then InvalidItemReply else ProductNotFoundReply;
      }
      var amount := priced.subtotal;
      amount := amount + (amount * 2) / 100;
      var draft := NewOrder(owner, items.value, addressId.value, amount, Cod, false);
      assert PlaceCod(user, items, address, addresses, catalog) == Ok(draft);
      var ok := Insert(draft, now);
      reply := if ok then Placed else InternalError;
    }

    /** POST /stripe. The order is written, paid, BEFORE the payment session is
        requested; `sessionCreated` is the provider's answer. A provider failure
        turns the reply into a 500 but leaves the order in the ledger. */
    method PlaceOrderStripe(user: Option<string>, items: Option<seq<OrderItem>>, address: JsValue,
                            catalog: map<string, int>, sessionCreated: bool, now: int)
      returns (reply: Reply)
      requires Valid()
      modifies this
      ensures Valid() && Extends(old(orders), orders)
      ensures var d := PlaceOnline(user, items, address, catalog);
              if d.Ok? && Accepts(d.value) then
                orders == old(orders)[old(nextId) := Create(old(nextId), d.value, now)]
                && reply == (if sessionCreated then Placed else InternalError)
              else
                orders == old(orders)
                && reply == (if d.Fail? then d.reply else InternalError)
    {
      if !Truthy(address) || items.None? || items.value == [] {
        return InvalidDetails;
      }
      var priced := ComputeSubtotal(items.value, catalog, false);
      if priced.Rejected? {
        return ProductNotFoundReply;
      }
      if priced.NotANumber? {
        return InternalError;
      }
      var amount := priced.subtotal;
      amount := amount + (amount * 2) / 100;
      var owner := if user.Some? then user.value else "";
      var addressId := if address.Str? then address.s else "";
      var ok := Insert(NewOrder(owner, items.value, addressId, amount, Online, true), now);
      if !ok {
        return InternalError;
      }
      reply := if sessionCreated then Placed else InternalError;
    }

    /** PUT /cancel/:orderId by `caller`. */
    method CancelOrder(caller: string, orderId: nat) returns (reply: Reply)
      requires Valid()
      modifies this
      ensures Valid() && Extends(old(orders), orders) && nextId == old(nextId)
      ensures reply == CancelReply(old(orders), caller, orderId)
      ensures reply.status == 200 ==> orders == old(orders)[orderId := old(orders)[orderId].(status := "Cancelled")]
      ensures reply.status != 200 ==> orders == old(orders)
    {
      reply := CancelReply(orders, caller, orderId);
      if orderId !in orders {
        return;
      }
      var order := orders[orderId];
      if order.userId != caller {
        return;
      }
      if order.status != "" && NotCancellable(order.status) {
        return;
      }
      order := order.(status := "Cancelled");
      orders := orders[orderId := order];
    }

    /** PUT /:orderId/status by the seller: any status is stored, with no
        transition check; "" stands for a status the body left undefined. */
    method UpdateOrderStatus(orderId: nat, status: string) returns (reply: Reply)
      requires Valid()
      modifies this
      ensures Valid() && Extends(old(orders), orders) && nextId == old(nextId)
      ensures orderId !in old(orders) ==> reply.status == 404 && orders == old(orders)
      ensures orderId in old(orders) ==>
                reply.status == 200 && orders == old(orders)[orderId := old(orders)[orderId].(status := status)]
    {
      if orderId !in orders {
        return Reply(404, "Order not found");
      }
      var order := orders[orderId];
      order := order.(status := status);
      orders := orders[orderId := order];
      reply := Reply(200, "Order status updated successfully");
    }

    /** PUT /:orderId/payment by the seller: `isPaid` is stored as given and
        `paidAt` is stamped with `now` only when marking paid while unset. */
    method UpdatePaymentStatus(orderId: nat, isPaid: bool, now: int) returns (reply: Reply)
      requires Valid()
      modifies this
      ensures Valid() && Extends(old(orders), orders) && nextId == old(nextId)
      ensures orderId !in old(orders) ==> reply.status == 404 && orders == old(orders)
      ensures orderId in old(orders) ==>
                reply.status == 200 && orders == old(orders)[orderId := PaymentUpdate(old(orders)[orderId], isPaid, now)]
    {
      if orderId !in orders {
        return Reply(404, "Order not found");
      }
      var order := orders[orderId];
      order := order.(isPaid := isPaid);
      if isPaid && order.paidAt.None? {
        order := order.(paidAt := Some(now));
      }
      orders := orders[orderId := order];
      reply := Reply(200, if isPaid then "Payment status updated to Paid" else "Payment status updated to Pending");
    }

    /** GET /user: the caller's visible orders, newest first. */
    function UserOrders(caller: string): (l: seq<Order>)
      reads this
      requires Valid()
      ensures forall i :: 0 <= i < |l| ==> l[i].userId == caller && Visible(l[i]) && l[i].id in orders && orders[l[i].id] == l[i]
      ensures forall i, j :: 0 <= i < j < |l| ==> l[i].id > l[j].id
      ensures forall id :: id in orders && orders[id].userId == caller && Visible(orders[id]) ==> orders[id] in l
    {
      ListedExactly(orders, OwnVisible(caller), nextId);
      Listed(orders, OwnVisible(caller), nextId)
    }

    /** GET /all: every visible order, newest first. */
    function AllOrders(): (l: seq<Order>)
      reads this
      requires Valid()
      ensures forall i :: 0 <= i < |l| ==> Visible(l[i]) && l[i].id in orders && orders[l[i].id] == l[i]
      ensures forall i, j :: 0 <= i < j < |l| ==> l[i].id > l[j].id
      ensures forall id :: id in orders && Visible(orders[id]) ==> orders[id] in l
    {
      ListedExactly(orders, AnyVisible(), nextId);
      Listed(orders, AnyVisible(), nextId)
    }
  }

  /** The payment toggle on one order. */
  function PaymentUpdate(o: Order, isPaid: bool, now: int): (p: Order)
    ensures p.isPaid == isPaid
    ensures isPaid && o.paidAt.None? ==> p.paidAt == Some(now)
    ensures !(isPaid && o.paidAt.None?) ==> p.paidAt == o.paidAt
    ensures p.(isPaid := o.isPaid, paidAt := o.paidAt) == o
  {
    var q := o.(isPaid := isPaid);
    if isPaid && q.paidAt.None? then q.(paidAt := Some(now)) else q
  }

  /** `paidAt` is set at most once: toggling paid, unpaid and paid again keeps
      the first stamp. */
  lemma PaidAtKeepsFirstStamp(o: Order, t1: int, t2: int, t3: int)
    requires o.paidAt.None?
    ensures PaymentUpdate(PaymentUpdate(PaymentUpdate(o, true, t1), false, t2), true, t3).paidAt == Some(t1)
  {
  }

  /** Under the schema as declared, the stamp never survives a save: reading
      the order back after marking it paid shows no `paidAt`. */
  lemma PaidAtNotPersisted(o: Order, now: int)
    ensures Persisted(PaymentUpdate(o, true, now)).paidAt == None
    ensures o.paidAt.None? ==> PaymentUpdate(o, true, now).paidAt == Some(now)
  {
  }
}
