/**
  The Order record of the storefront's ledger (server/models/order.model.js):
  its fields, the ones `Order.create` insists on, and the defaults it fills in.
  Also the address document as the order handlers read it back.
 */
module OrderSchema {
  import opened Js

  const DefaultStatus: string := "Order Placed"
  const Cod: string := "COD"
  const Online: string := "Online"

  /** One order line: a product reference and a quantity. The request's
      `{product, quantity}` has the same shape and is stored verbatim. An empty
      product id stands for a missing one, and `None` for a missing quantity. */
  datatype OrderItem = OrderItem(product: string, quantity: Option<int>)

  /** The object a handler passes to `Order.create`. */
  datatype NewOrder = NewOrder(
    userId: string,
    items: seq<OrderItem>,
    address: string,
    amount: int,
    paymentType: string,
    isPaid: bool)

  /** A stored order. `id` is the document's `_id` (allocated in creation order),
      `createdAt` its timestamp, `status` is "" once a handler has unset it.
      `paidAt` is kept as the payment handler writes it, although the schema
      declares no such path. */
  datatype Order = Order(
    id: nat,
    userId: string,
    items: seq<OrderItem>,
    address: string,
    amount: int,
    paymentType: string,
    isPaid: bool,
    status: string,
    paidAt: Option<int>,
    createdAt: int)

  /** The address document as the order handlers read it back. */
  datatype StoredAddress = StoredAddress(
    firstName: string,
    lastName: string,
    email: string,
    phone: string,
    street: string,
    city: string,
    state: string,
    zipCode: string,
    country: string)

  /** The required-field validation `Order.create` runs: `userId` is a required
      String (so the empty string fails), `address`, `paymentType` and each
      item's `product` and `quantity` are required. `amount` and `isPaid` are
      always present in a draft (a NaN amount is refused before the draft). */
  predicate Accepts(d: NewOrder)
  {
    && d.userId != ""
    && d.address != ""
    && d.paymentType != ""
    && forall i :: 0 <= i < |d.items| ==> d.items[i].product != "" && d.items[i].quantity.Some?
  }

  /** The document `Order.create` stores for an accepted draft. */
  function Create(id: nat, d: NewOrder, now: int): (o: Order)
    ensures o.id == id && o.createdAt == now
    ensures o.status == DefaultStatus && o.paidAt == None
    ensures o.userId == d.userId && o.items == d.items && o.address == d.address
    ensures o.amount == d.amount && o.paymentType == d.paymentType && o.isPaid == d.isPaid
  {
    Order(id, d.userId, d.items, d.address, d.amount, d.paymentType, d.isPaid, DefaultStatus, None, now)
  }

  /** What a save writes back under the schema: every declared path, and no
      `paidAt`, which the schema does not declare. */
  function Persisted(o: Order): (p: Order)
    ensures p.paidAt == None
    ensures p.(paidAt := o.paidAt) == o
  {
    o.(paidAt := None)
  }

  /** Listings show an order only when it is cash on delivery or paid. */
  predicate Visible(o: Order)
  {
    o.paymentType == Cod || o.isPaid
  }
}
