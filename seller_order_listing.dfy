/**
  The seller's order listing (the `GET /seller` handler of
  server/routes/order.routes.js): visible orders, optionally of one status,
  newest first; one page of them; addresses and products joined in with fixed
  defaults for misses; a search over the joined page; the totals.
 */
module SellerOrderListing {
  import opened Js
  import opened OrderSchema
  import opened OrderController

  /** The query string as given; a missing parameter is `None`. Numbers are
      taken as already converted to integers. */
  datatype SellerQuery = SellerQuery(page: Option<int>, limit: Option<int>, search: Option<string>, status: Option<string>)

  /** A product as the listing selects it: name, images and offer price. */
  datatype ProductSummary = ProductSummary(name: string, image: seq<string>, offerPrice: int)

  /** An order line as listed: the product's summary and the stored quantity. */
  datatype ListedItem = ListedItem(product: ProductSummary, quantity: Option<int>)

  /** An order with its address and item products replaced by documents. */
  datatype ListedOrder = ListedOrder(
    id: nat,
    items: seq<ListedItem>,
    address: StoredAddress,
    amount: int,
    status: string,
    isPaid: bool,
    createdAt: int,
    paymentType: string)

  /** The answer: the page, `total`, the requested `page` and `pages`
      (`None` is the `null` that `Infinity` and `NaN` serialise to). */
  datatype Listing = Listing(orders: seq<ListedOrder>, total: int, page: int, pages: Option<int>)

  /** The handler's outcome: the listing, or the 500 of a failed query
      (a negative skip) or of a search that is not a valid regular expression. */
  datatype ListingResult = Answer(listing: Listing) | ServerError

  const DefaultAddress: StoredAddress :=
    StoredAddress("Unknown", "Customer", "unknown@email.com", "N/A", "N/A", "N/A", "N/A", "N/A", "N/A")

  const DefaultProduct: ProductSummary := ProductSummary("Unknown Product", [], 0)

  // ---------------------------------------------------------------------------
  // Query

  /** The filter of the count and of the page query: visible, and of the given
      status when one is given. */
  function SellerFilter(status: string): Order -> bool
  {
    o => Visible(o) && (status == "" || o.status == status)
  }

  function Abs(x: int): nat
  {
    if x < 0 then -x else x
  }

  /** `.skip(skip).limit(limit)` on the sorted result. A limit of 0 means no
      limit, and a negative one is read as its absolute value. */
  function Window<T>(s: seq<T>, skip: nat, limit: int): (w: seq<T>)
    ensures skip >= |s| ==> w == []
    ensures skip < |s| && limit == 0 ==> |w| == |s| - skip
    ensures skip < |s| && limit != 0 ==> |w| == if Abs(limit) < |s| - skip then Abs(limit) else |s| - skip
    ensures forall i :: 0 <= i < |w| ==> skip + i < |s| && w[i] == s[skip + i]
  {
    if skip >= |s| then []
    else if limit == 0 || Abs(limit) >= |s| - skip then s[skip..]
    else s[skip..skip + Abs(limit)]
  }

  /** `Math.ceil(count / limit)`; `None` when the limit is 0. */
  function Pages(count: nat, limit: int): (r: Option<int>)
    ensures limit == 0 <==> r.None?
    ensures limit > 0 ==> (r.value - 1) * limit < count <= r.value * limit
    ensures limit < 0 ==> r.value <= 0
  {
    if limit == 0 then None
    else if limit > 0 then Some((count + limit - 1) / limit)
    else Some(-(count / -limit))
  }

  // ---------------------------------------------------------------------------
  // Join

  /** The distinct valid address ids of a page: the lookup's key set. */
  function AddressIds(page: seq<Order>, validId: string -> bool): set<string>
  {
    set i | 0 <= i < |page| && page[i].address != "" && validId(page[i].address) :: page[i].address
  }

  /** Whether `id` is a referenced product of the page. */
  predicate ProductIdOf(page: seq<Order>, validId: string -> bool, id: string)
  {
    id != "" && validId(id) && exists i, k :: 0 <= i < |page| && 0 <= k < |page[i].items| && page[i].items[k].product == id
  }

  /** The batch fetch: the documents whose id is in `ids`. */
  function Fetch<V>(docs: map<string, V>, ids: set<string>): (m: map<string, V>)
    ensures forall id :: id in m <==> id in ids && id in docs
    ensures forall id :: id in m ==> m[id] == docs[id]
  {
    map id | id in ids && id in docs :: docs[id]
  }

  /** The products fetched for a page. */
  function FetchProducts(page: seq<Order>, validId: string -> bool, products: map<string, ProductSummary>): (m: map<string, ProductSummary>)
    ensures forall id :: id in m <==> id in products && ProductIdOf(page, validId, id)
    ensures forall id :: id in m ==> m[id] == products[id]
  {
    map id | id in products && ProductIdOf(page, validId, id) :: products[id]
  }

  function AddressFrom(id: string, fetched: map<string, StoredAddress>): StoredAddress
  {
    if id != "" && id in fetched then fetched[id] else DefaultAddress
  }

  function ProductFrom(id: string, fetched: map<string, ProductSummary>): ProductSummary
  {
    if id != "" && id in fetched then fetched[id] else DefaultProduct
  }

  /** One order after the join. */
  function JoinOrder(o: Order, addressMap: map<string, StoredAddress>, productMap: map<string, ProductSummary>): (l: ListedOrder)
    ensures l.id == o.id && l.amount == o.amount && l.status == o.status && l.isPaid == o.isPaid
    ensures l.createdAt == o.createdAt && l.paymentType == o.paymentType
    ensures l.address == AddressFrom(o.address, addressMap)
    ensures |l.items| == |o.items|
    ensures forall k :: 0 <= k < |o.items| ==>
              l.items[k] == ListedItem(ProductFrom(o.items[k].product, productMap), o.items[k].quantity)
  {
    ListedOrder(o.id,
      seq(|o.items|, k requires 0 <= k < |o.items| => ListedItem(ProductFrom(o.items[k].product, productMap), o.items[k].quantity)),
      AddressFrom(o.address, addressMap), o.amount, o.status, o.isPaid, o.createdAt, o.paymentType)
  }

  /** What one reference resolves to when looked up on its own: the document
      when the id is non-empty, valid and present, else the default. */
  function Resolve<V>(id: string, docs: map<string, V>, validId: string -> bool, default: V): V
  {
    if id != "" && validId(id) && id in docs then docs[id] else default
  }

  /** De-duplicating the ids and fetching in one batch gives every order the
      same address and products as looking each reference up on its own;
      invalid ids fall to the defaults. */
  lemma BatchJoinIsLookup(page: seq<Order>, validId: string -> bool,
                          addresses: map<string, StoredAddress>, products: map<string, ProductSummary>, i: nat)
    requires i < |page|
    ensures var l := JoinOrder(page[i], Fetch(addresses, AddressIds(page, validId)), FetchProducts(page, validId, products));
            && l.address == Resolve(page[i].address, addresses, validId, DefaultAddress)
            && forall k :: 0 <= k < |page[i].items| ==>
                 l.items[k].product == Resolve(page[i].items[k].product, products, validId, DefaultProduct)
  {
    var o := page[i];
    if o.address != "" && validId(o.address) {
      assert o.address in AddressIds(page, validId);
    }
    forall k | 0 <= k < |o.items|
      ensures ProductFrom(o.items[k].product, FetchProducts(page, validId, products))
              == Resolve(o.items[k].product, products, validId, DefaultProduct)
    {
      var id := o.items[k].product;
      if id != "" && validId(id) {
        assert page[i].items[k].product == id;
        assert ProductIdOf(page, validId, id);
      }
    }
  }

  /** The join loop: each order of the page gets its address document and each
      item its product document, or the defaults. */
  method Join(page: seq<Order>, addressMap: map<string, StoredAddress>, productMap: map<string, ProductSummary>)
    returns (joined: seq<ListedOrder>)
    ensures |joined| == |page|
    ensures forall i :: 0 <= i < |page| ==> joined[i] == JoinOrder(page[i], addressMap, productMap)
  {
    joined := [];
    var i := 0;
    while i < |page|
      invariant 0 <= i <= |page| && |joined| == i
      invariant forall j :: 0 <= j < i ==> joined[j] == JoinOrder(page[j], addressMap, productMap)
    {
      var o := page[i];
      var items: seq<ListedItem> := [];
      var k := 0;
      while k < |o.items|
        invariant 0 <= k <= |o.items| && |items| == k
        invariant forall m :: 0 <= m < k ==>
                    items[m] == ListedItem(ProductFrom(o.items[m].product, productMap), o.items[m].quantity)
      {
        var pid := o.items[k].product;
        var product := if pid != "" && pid in productMap then productMap[pid] else DefaultProduct;
        items := items + [ListedItem(product, o.items[k].quantity)];
        k := k + 1;
      }
      var address := if o.address != "" && o.address in addressMap then addressMap[o.address] else DefaultAddress;
      joined := joined + [ListedOrder(o.id, items, address, o.amount, o.status, o.isPaid, o.createdAt, o.paymentType)];
      i := i + 1;
    }
  }

  // ---------------------------------------------------------------------------
  // Search

  /** A customer name or email that is present and matches. */
  predicate CustomerMatch(a: StoredAddress, test: string -> bool)
  {
    (a.firstName != "" && test(a.firstName)) || (a.lastName != "" && test(a.lastName)) || (a.email != "" && test(a.email))
  }

  /** Some item's product name is present and matches. */
  predicate ProductMatch(o: ListedOrder, test: string -> bool)
  {
    exists k :: 0 <= k < |o.items| && o.items[k].product.name != "" && test(o.items[k].product.name)
  }

  predicate SearchMatch(o: ListedOrder, test: string -> bool)
  {
    CustomerMatch(o.address, test) || ProductMatch(o, test)
  }

  /** `orders.filter(...)` with the search predicate. */
  function SearchFilter(orders: seq<ListedOrder>, test: string -> bool): seq<ListedOrder>
  {
    if orders == [] then []
    else
      var rest := SearchFilter(orders[1..], test);
      if SearchMatch(orders[0], test) then [orders[0]] + rest else rest
  }

  predicate NewestFirst(orders: seq<ListedOrder>)
  {
    forall i, j :: 0 <= i < j < |orders| ==> orders[i].id > orders[j].id
  }

  /** The search keeps exactly the matching orders of the page, and keeps
      them newest first. */
  lemma {:induction false} SearchFilterKeeps(orders: seq<ListedOrder>, test: string -> bool)
    ensures forall o :: o in SearchFilter(orders, test) <==> o in orders && SearchMatch(o, test)
    ensures |SearchFilter(orders, test)| <= |orders|
    ensures NewestFirst(orders) ==> NewestFirst(SearchFilter(orders, test))
  {
    if orders != [] {
      SearchFilterKeeps(orders[1..], test);
      var rest := SearchFilter(orders[1..], test);
      if NewestFirst(orders) && SearchMatch(orders[0], test) {
        assert forall o :: o in rest ==> o in orders[1..];
        assert forall j :: 0 <= j < |rest| ==> rest[j] in orders[1..];
        var r := [orders[0]] + rest;
        forall i, j | 0 <= i < j < |r|
          ensures r[i].id > r[j].id
        {
          if i == 0 {
            assert r[j] in orders[1..];
          }
        }
      }
    }
  }

  // ---------------------------------------------------------------------------
  // The handler

  /** The query with its defaults: page 1, limit 10, no search, any status. */
  datatype Params = Params(page: int, limit: int, search: string, status: string)

  function Defaults(q: SellerQuery): Params
  {
    Params(if q.page.Some? then q.page.value else 1,
           if q.limit.Some? then q.limit.value else 10,
           if q.search.Some? then q.search.value else "",
           if q.status.Some? then q.status.value else "")
  }

  /** `(page - 1) * limit`, the number of matching orders passed over. */
  function Skip(p: Params): int
  {
    (p.page - 1) * p.limit
  }

  /** The matching orders, newest first: the documents behind the count. */
  function Matching(orders: map<nat, Order>, nextId: nat, p: Params): seq<Order>
  {
    Listed(orders, SellerFilter(p.status), nextId)
  }

  /** The page after the batch join. */
  function JoinPage(window: seq<Order>, addresses: map<string, StoredAddress>, products: map<string, ProductSummary>,
                    validId: string -> bool): (joined: seq<ListedOrder>)
    ensures |joined| == |window|
    ensures forall i :: 0 <= i < |window| ==>
              joined[i] == JoinOrder(window[i], Fetch(addresses, AddressIds(window, validId)), FetchProducts(window, validId, products))
  {
    var am := Fetch(addresses, AddressIds(window, validId));
    var pm := FetchProducts(window, validId, products);
    seq(|window|, i requires 0 <= i < |window| => JoinOrder(window[i], am, pm))
  }

  /** The search (only when the trimmed search is non-blank) and the answer;
      `count` is the number of matching orders. */
  function Respond(joined: seq<ListedOrder>, p: Params, count: nat, matcher: Option<string -> bool>): ListingResult
  {
    if Trim(p.search) != "" && matcher.None? then ServerError
    else
      var shown := if Trim(p.search) != "" then SearchFilter(joined, matcher.value) else joined;
      var total := if p.search != "" then |shown| else count;
      Answer(Listing(shown, total, p.page, Pages(total, p.limit)))
  }

  /** The whole handler over the ledger `orders` (ids below `nextId`), the
      address and product collections, the id validity check, and `matcher`,
      the compiled case-insensitive regular expression of the trimmed search
      (`None` when it does not compile). */
  function SellerListing(orders: map<nat, Order>, nextId: nat, q: SellerQuery,
                         addresses: map<string, StoredAddress>, products: map<string, ProductSummary>,
                         validId: string -> bool, matcher: Option<string -> bool>): ListingResult
  {
    var p := Defaults(q);
    var matching := Matching(orders, nextId, p);
    var skip := Skip(p);
    if skip < 0 then ServerError
    else Respond(JoinPage(Window(matching, skip, p.limit), addresses, products, validId), p, |matching|, matcher)
  }

  /** The handler as the route runs it: count, fetch the page, batch-join,
      search, answer. */
  method SellerOrders(ledger: Ledger, q: SellerQuery,
                      addresses: map<string, StoredAddress>, products: map<string, ProductSummary>,
                      validId: string -> bool, matcher: Option<string -> bool>)
    returns (r: ListingResult)
    requires ledger.Valid()
    ensures r == SellerListing(ledger.orders, ledger.nextId, q, addresses, products, validId, matcher)
  {
    var p := Defaults(q);
    var matching := Matching(ledger.orders, ledger.nextId, p);
    var total := |matching|;
    var skip := Skip(p);
    if skip < 0 {
      return ServerError;
    }
    var window := Window(matching, skip, p.limit);
    var addressMap := Fetch(addresses, AddressIds(window, validId));
    var productMap := FetchProducts(window, validId, products);
    var joined := Join(window, addressMap, productMap);
    assert joined == JoinPage(window, addresses, products, validId);
    var shown := joined;
    if Trim(p.search) != "" {
      if matcher.None? {
        return ServerError;
      }
      shown := SearchFilter(joined, matcher.value);
    }
    var reported := if p.search != "" then |shown| else total;
    r := Answer(Listing(shown, reported, p.page, Pages(reported, p.limit)));
  }

  // ---------------------------------------------------------------------------
  // Properties of the listing

  /** Every listed order is a visible order of the ledger with the requested
      status, the page is newest first, and no longer than the limit. */
  lemma ListingShows(orders: map<nat, Order>, nextId: nat, q: SellerQuery,
                     addresses: map<string, StoredAddress>, products: map<string, ProductSummary>,
                     validId: string -> bool, matcher: Option<string -> bool>)
    requires KeyedById(orders)
    requires SellerListing(orders, nextId, q, addresses, products, validId, matcher).Answer?
    ensures var l := SellerListing(orders, nextId, q, addresses, products, validId, matcher).listing;
            var p := Defaults(q);
            && NewestFirst(l.orders)
            && (forall i :: 0 <= i < |l.orders| ==>
                  && l.orders[i].id in orders && Visible(orders[l.orders[i].id])
                  && (p.status == "" || orders[l.orders[i].id].status == p.status)
                  && l.orders[i].status == orders[l.orders[i].id].status)
            && (p.limit != 0 ==> |l.orders| <= Abs(p.limit))
  {
    var p := Defaults(q);
    var matching := Matching(orders, nextId, p);
    var joined := JoinPage(Window(matching, Skip(p), p.limit), addresses, products, validId);
    PageFromLedger(orders, nextId, p, addresses, products, validId);
    RespondKeeps(joined, p, |matching|, matcher);
  }

  /** The joined page: orders of the ledger that pass the filter, newest first,
      at most `limit` of them. */
  lemma PageFromLedger(orders: map<nat, Order>, nextId: nat, p: Params,
                       addresses: map<string, StoredAddress>, products: map<string, ProductSummary>,
                       validId: string -> bool)
    requires KeyedById(orders) && Skip(p) >= 0
    ensures var joined := JoinPage(Window(Matching(orders, nextId, p), Skip(p), p.limit), addresses, products, validId);
            && NewestFirst(joined)
            && (forall i :: 0 <= i < |joined| ==>
                  && joined[i].id in orders && SellerFilter(p.status)(orders[joined[i].id])
                  && joined[i].status == orders[joined[i].id].status)
            && (p.limit != 0 ==> |joined| <= Abs(p.limit))
  {
    var matching := Matching(orders, nextId, p);
    ListedExactly(orders, SellerFilter(p.status), nextId);
    var window := Window(matching, Skip(p), p.limit);
    var joined := JoinPage(window, addresses, products, validId);
    assert forall i :: 0 <= i < |joined| ==> joined[i].id == window[i].id && window[i] == matching[Skip(p) + i];
  }

  /** The answer holds orders of the joined page only, in their order. */
  lemma RespondKeeps(joined: seq<ListedOrder>, p: Params, count: nat, matcher: Option<string -> bool>)
    requires Respond(joined, p, count, matcher).Answer?
    ensures var l := Respond(joined, p, count, matcher).listing;
            && |l.orders| <= |joined|
            && (forall i :: 0 <= i < |l.orders| ==> l.orders[i] in joined)
            && (NewestFirst(joined) ==> NewestFirst(l.orders))
  {
    if Trim(p.search) != "" {
      SearchFilterKeeps(joined, matcher.value);
    }
  }

  /** Without a search the answer is the joined page, and `total` counts every
      matching order, not just the page. */
  lemma TotalWithoutSearch(orders: map<nat, Order>, nextId: nat, q: SellerQuery,
                           addresses: map<string, StoredAddress>, products: map<string, ProductSummary>,
                           validId: string -> bool, matcher: Option<string -> bool>)
    requires Defaults(q).search == "" && Skip(Defaults(q)) >= 0
    ensures var p := Defaults(q);
            var count := |Matching(orders, nextId, p)|;
            SellerListing(orders, nextId, q, addresses, products, validId, matcher)
              == Answer(Listing(JoinPage(Window(Matching(orders, nextId, p), Skip(p), p.limit), addresses, products, validId),
                                count, p.page, Pages(count, p.limit)))
  {
    var p := Defaults(q);
    var matching := Matching(orders, nextId, p);
    var joined := JoinPage(Window(matching, Skip(p), p.limit), addresses, products, validId);
    RespondWithoutSearch(joined, p, |matching|, matcher);
  }

  lemma RespondWithoutSearch(joined: seq<ListedOrder>, p: Params, count: nat, matcher: Option<string -> bool>)
    requires p.search == ""
    ensures Respond(joined, p, count, matcher) == Answer(Listing(joined, count, p.page, Pages(count, p.limit)))
  {
    assert Trim(p.search) == "";
  }

  /** A search of white space only filters nothing, yet `total` (and with it
      `pages`) becomes the length of the current page instead of the count of
      matching orders. */
  lemma BlankSearchReportsPageLength(orders: map<nat, Order>, nextId: nat, q: SellerQuery,
                                     addresses: map<string, StoredAddress>, products: map<string, ProductSummary>,
                                     validId: string -> bool, matcher: Option<string -> bool>)
    requires Defaults(q).search != "" && Trim(Defaults(q).search) == ""
    requires SellerListing(orders, nextId, q, addresses, products, validId, matcher).Answer?
    ensures var l := SellerListing(orders, nextId, q, addresses, products, validId, matcher).listing;
            var p := Defaults(q);
            var window := Window(Matching(orders, nextId, p), Skip(p), p.limit);
            && l.orders == JoinPage(window, addresses, products, validId)
            && l.total == |window|
            && l.pages == Pages(|window|, p.limit)
  {
  }

  /** With a real search, the page holds exactly the matching orders of the
      joined page, and `total` is their number. */
  lemma SearchedListing(orders: map<nat, Order>, nextId: nat, q: SellerQuery,
                        addresses: map<string, StoredAddress>, products: map<string, ProductSummary>,
                        validId: string -> bool, test: string -> bool)
    requires Trim(Defaults(q).search) != ""
    requires SellerListing(orders, nextId, q, addresses, products, validId, Some(test)).Answer?
    ensures var l := SellerListing(orders, nextId, q, addresses, products, validId, Some(test)).listing;
            var p := Defaults(q);
            var joined := JoinPage(Window(Matching(orders, nextId, p), Skip(p), p.limit), addresses, products, validId);
            && l.total == |l.orders|
            && forall o :: o in l.orders <==> o in joined && SearchMatch(o, test)
  {
    var p := Defaults(q);
    var joined := JoinPage(Window(Matching(orders, nextId, p), Skip(p), p.limit), addresses, products, validId);
    SearchFilterKeeps(joined, test);
    assert Trim("") == "";
  }
}
