# Grocery storefront: a verified model of its core logic

This project models the logic of a grocery storefront in Dafny. The storefront is an Express and
MongoDB server with a React client. Database collections become maps held by classes. The clock,
random draws, mail delivery, the payment provider and token signing become parameters. Each
module follows one source file.

Server side:

- **OrderSchema** (`server/models/order.model.js`): the order record, the fields `Order.create`
  requires and the defaults it fills in.
- **OrderController** (`server/controller/order.controller.js`): the pricing loop, cash-on-delivery
  and online placement, and the order ledger (`class Ledger`). The ledger covers cancellation, the
  seller's status and payment updates, and the customer and admin listings. The older
  `backend/controller/order.controller.js` lists orders with the same filter and order
  (lines 109-136), so `Ledger.UserOrders` and `Ledger.AllOrders` model both copies.
- **LegacyOrderController** (`backend/controller/order.controller.js`): the older placement. It
  makes one combined check, prices lines without an existence check, and answers 500 for an
  unknown product.
- **SellerOrderListing** (`server/routes/order.routes.js`): the seller's listing. It filters, takes
  a newest-first page window, joins addresses and products with fixed defaults, applies the search
  after paging and computes the page count.
- **OtpServer** (`server/index.js`): the one-time-code store (`class OtpStore`), its two routes and
  the CORS origin decision. The older `backend/index.js` has the same store, validator and verify
  route (lines 35-61, 97-105). Its send route differs in one way, modelled by
  `OtpStore.SendEmailOtpOlder`.
- **AddressController** (`server/controller/address.controller.js`) and **ProductController**
  (`server/controller/product.controller.js`): request validation, the renaming of fields, and the
  partial product update.
- **AuthSeller** (`server/middlewares/authSeller.js`) and **SellerController**
  (`server/controller/seller.controller.js`): where the seller token comes from, the 401/403
  decision, and seller login.

Client side:

- **CartStore** (`client/src/context/AppContext.jsx`): the cart object and its totals.
- **CartPage** (`client/src/pages/Cart.jsx`): the cart rows, shipping, the payment selector and
  the order request.
- **ClientConfig** (`client/src/utils/config.js`): the backend URL and image URLs.
- **AddressForm** (`client/src/pages/Address.jsx`): the email pattern, validation and the OTP
  submission gate.
- **ProductsPage** and **BestSeller**: the catalogue filters.
- **SellerCategories** (`client/src/pages/seller/Categories.jsx`): per-category counts and the
  products moved when a category is deleted.

Shared modules:

- **Js** models the JavaScript semantics the code relies on: truthiness, `||`, `trim`,
  `toLowerCase`, `includes`, `startsWith` and decimal strings. `Number()` follows the
  StringNumericLiteral grammar of section 7.1.4.1.1 of ECMA-262: white space, signs, `Infinity`,
  decimals with an exponent, and `0x`/`0o`/`0b` literals. An array reads as its one element.
- **ClientCatalog** holds the client's product record and order-preserving filtering.
- **Tally** holds sums over insertion-ordered object keys.
- **Http** holds the reply shapes.

Where the source's own comments or intent and its code disagree, the model follows the code,
with one exception. The cart page as written throws a `ReferenceError` on every render
(`client/src/pages/Cart.jsx:12-13` reads `totalCartAmount` before the destructuring at lines
14-26 binds it). `CartPage.RenderThrows` states that. The rest of `CartPage` models the page with
the destructuring first (see "## Findings"). The other cases:

- An order whose status was left empty can still be cancelled. The test is
  `order.status && [...].includes(order.status)`.
- A negative quantity passes the placement checks; only a falsy one (0) is rejected.
- A missing quantity is refused on cash on delivery ("Invalid item in cart"). The online and older
  paths do not check it: the amount becomes NaN, and `Order.create` then refuses the order (500)
  because the schema requires each quantity.
- `paidAt` is written by the payment handler but is not declared in the schema. It is modelled as
  written, and `PaidAtNotPersisted` states that a schema-strict save drops it.
- A search of white space alone filters nothing. It still replaces `total` by the page length.

## Model

| member | source | states |
|---|---|---|
| OrderSchema.Create | server/models/order.model.js:2-19 | a stored order keeps the draft's fields, gets status "Order Placed", no paidAt, its id and creation time |
| OrderSchema.Persisted | server/models/order.model.js:2-19 | a save keeps every declared path and drops the undeclared paidAt |
| OrderController.SubtotalSucceedsIff | server/controller/order.controller.js:43-53 | pricing is not rejected exactly when every line names a fetched product and, where checked, has a truthy product and quantity; it is a number exactly when, in addition, every quantity is present |
| OrderController.RejectionIsFirstBadLine | server/controller/order.controller.js:43-51 | the rejection is that of the first line not let through: "Invalid item" for a malformed checked line, else "Product not found" |
| OrderController.MissingProductRejects | server/controller/order.controller.js:49-51 | a line whose product is not in the batch makes the pricing reject |
| OrderController.RejectedPrefixRejects | server/controller/order.controller.js:43-53 | the loop stops at the first rejected line: a rejected prefix fixes the outcome of the whole list |
| OrderController.ComputeSubtotal | server/controller/order.controller.js:43-53 | the accumulating loop computes the line-by-line subtotal or the first rejection |
| OrderController.WithSurcharge | server/controller/order.controller.js:56 | amount = S + floor(2S/100), so S <= amount <= S + S/50 for S >= 0 |
| OrderController.AddressIdOf | server/controller/order.controller.js:20-29 | the address id is `_id` or `id` of an object, or the string itself; only a non-empty string is an id |
| OrderController.AddressForms | server/controller/order.controller.js:20-23 | `{_id: x}`, `{id: x}` and `x` name the same address |
| OrderController.OwnerId | server/controller/order.controller.js:36-38 | the owner is the signed-in user, else "guest:" followed by the address's email |
| OrderController.GuestIdentity | server/controller/order.controller.js:36-38 | two guest owners are equal exactly when their emails are |
| OrderController.PlaceCod | server/controller/order.controller.js:8-64 | 400 "No items provided", "Invalid address", "Address not found", then the pricing's "Invalid item in cart" or "Product not found", in that order; success exactly when all checks pass; a success is an unpaid COD order at the surcharged subtotal, owned as above, that the schema accepts |
| OrderController.PlaceOnline | server/controller/order.controller.js:93-128 | a falsy address or no items gives 400 "Invalid order details"; an unknown product 400 "Product not found"; a missing quantity 500; success exactly otherwise, a paid Online order at the surcharged subtotal with the given user and address |
| OrderController.CancelReply | server/controller/order.controller.js:221-257 | 404 for an unknown order, 403 for another owner, 400 for Shipped/Delivered/Cancelled, 200 otherwise |
| OrderController.ListedExactly | server/controller/order.controller.js:189-218 | a listing holds exactly the selected stored orders, each once, newest first |
| OrderController.Ledger.Insert | server/models/order.model.js:2-19 | `Order.create` stores the draft with its defaults under a fresh id exactly when the schema accepts it |
| OrderController.Ledger.PlaceOrderCOD | server/controller/order.controller.js:8-91 | a rejected request writes nothing; an accepted one writes exactly one order and answers 201 |
| OrderController.Ledger.PlaceOrderStripe | server/controller/order.controller.js:93-186 | the paid order is written before the payment session; a provider failure answers 500 and keeps it |
| OrderController.Ledger.CancelOrder | server/controller/order.controller.js:221-262 | the reply is the cancel decision, and only a 200 sets the status to "Cancelled" |
| OrderController.Ledger.UpdateOrderStatus | server/controller/order.controller.js:265-314 | an existing order takes any given status; an unknown one gives 404 |
| OrderController.Ledger.UpdatePaymentStatus | server/controller/order.controller.js:317-345 | isPaid is stored as given and paidAt stamped only when marking paid while unset |
| OrderController.Ledger.UserOrders | server/controller/order.controller.js:189-203 | exactly the caller's COD-or-paid orders, newest first |
| OrderController.Ledger.AllOrders | server/controller/order.controller.js:206-218 | exactly the COD-or-paid orders, newest first |
| OrderController.PaymentUpdate | server/controller/order.controller.js:328-333 | only isPaid and paidAt change; paidAt is set to now only when marking paid while unset |
| OrderController.PaidAtKeepsFirstStamp | server/controller/order.controller.js:331-333 | paid, unpaid, paid again keeps the first stamp |
| OrderController.PaidAtNotPersisted | server/controller/order.controller.js:331-333 | the handler sets paidAt, and a save under the declared schema drops it |
| LegacyOrderController.LegacyPlace | backend/controller/order.controller.js:6-72 | a falsy address or no items gives 400; an unknown product or missing quantity gives 500; success exactly otherwise, COD unpaid or Online paid at the surcharged subtotal with the given user, address and items |
| LegacyOrderController.MissingProductIsInternalError | backend/controller/order.controller.js:16-19 | an unknown product gives 500 in the older code where the current code answers 400 "Product not found" |
| LegacyOrderController.SameOnlineTotal | backend/controller/order.controller.js:52-64 | the older online order equals the current one whenever the older one is accepted |
| LegacyOrderController.Place | backend/controller/order.controller.js:6-37 | the placement writes one order exactly when the draft is accepted, else nothing |
| LegacyOrderController.PlaceOrderCOD | backend/controller/order.controller.js:6-37 | an accepted draft becomes one unpaid COD order with 201; anything else writes nothing |
| LegacyOrderController.PlaceOrderStripe | backend/controller/order.controller.js:39-106 | the paid order is written before the session request; a provider failure answers 500 and keeps it |
| SellerOrderListing.Window | server/routes/order.routes.js:54-59 | skip then limit: the window is the slice after `skip`, at most `limit` long (0 means no limit) |
| SellerOrderListing.Pages | server/routes/order.routes.js:141-147 | pages = ceil(total/limit): the least page count covering the total |
| SellerOrderListing.Fetch | server/routes/order.routes.js:86-92 | the batch lookup holds exactly the requested ids that exist, with their documents |
| SellerOrderListing.FetchProducts | server/routes/order.routes.js:76-92 | the fetched products are exactly the referenced ids that exist |
| SellerOrderListing.JoinOrder | server/routes/order.routes.js:94-116 | a joined order keeps its own fields and swaps in its address and each item's product |
| SellerOrderListing.BatchJoinIsLookup | server/routes/order.routes.js:68-116 | de-duplicated batch lookups give each reference its own document or the fixed default |
| SellerOrderListing.Join | server/routes/order.routes.js:107-116 | the join loop replaces every order of the page by its joined form |
| SellerOrderListing.SearchFilterKeeps | server/routes/order.routes.js:121-137 | the search keeps exactly the matching orders, no more of them, newest first |
| SellerOrderListing.JoinPage | server/routes/order.routes.js:68-116 | the joined page has one joined order per order of the window |
| SellerOrderListing.SellerOrders | server/routes/order.routes.js:32-152 | the handler answers the listing function of the ledger and the query |
| SellerOrderListing.ListingShows | server/routes/order.routes.js:38-59 | every listed order is a visible ledger order of the requested status; the page is newest first and within the limit |
| SellerOrderListing.PageFromLedger | server/routes/order.routes.js:38-116 | the joined page holds filtered ledger orders, newest first, at most `limit` |
| SellerOrderListing.RespondKeeps | server/routes/order.routes.js:121-147 | the answer holds only orders of the joined page, in their order |
| SellerOrderListing.TotalWithoutSearch | server/routes/order.routes.js:50-147 | without a search, total is the count of every matching order and the orders are the joined page |
| SellerOrderListing.RespondWithoutSearch | server/routes/order.routes.js:141-147 | without a search the answer is the page with the count and its page total |
| SellerOrderListing.BlankSearchReportsPageLength | server/routes/order.routes.js:121-142 | a white-space search filters nothing but reports the page length as total |
| SellerOrderListing.SearchedListing | server/routes/order.routes.js:121-147 | with a search, the orders are exactly the matching joined ones and total is their number |
| OtpServer.GenerateOtp | server/index.js:66-68 | six decimal digits, no leading zero, value 100000 + draw in [100000, 999999] |
| OtpServer.GenerateOtpInjective | server/index.js:66-68 | different draws give different codes |
| OtpServer.SetOverwrites | server/index.js:70-76 | setting replaces the key's entry by a fresh one (5 minutes, 0 attempts) and touches no other key |
| OtpServer.CheckOrder | server/index.js:78-89 | the validator answers missing, expired, locked, mismatch, valid, in that order of checks |
| OtpServer.MismatchCountsOne | server/index.js:83-86 | a wrong code adds exactly one attempt to that entry and no other change |
| OtpServer.RefusalsKeepStore | server/index.js:79-82 | missing, expired and locked answers leave the store unchanged |
| OtpServer.CodeWorksOnce | server/index.js:87-88 | the right code in time is valid once; asking again gives "No OTP sent" |
| OtpServer.GuessesCount | server/index.js:82-86 | n wrong guesses (n <= 5) leave n attempts on the entry |
| OtpServer.FiveWrongGuessesLock | server/index.js:82 | after five wrong guesses even the right code gets "Too many attempts" |
| OtpServer.OtpStore.SetOtp | server/index.js:70-76 | the store becomes the old one with the key's entry replaced |
| OtpServer.OtpStore.ValidateOtp | server/index.js:78-89 | answer and new store are those of the validator's specification |
| OtpServer.OtpStore.SendEmailOtp | server/index.js:110-201 | no email gives 400 and no change; otherwise the code is stored before the SMTP check and the mail |
| OtpServer.OtpStore.SendEmailOtpOlder | backend/index.js:76-95 | no email gives 400; otherwise the code is stored, then 200 or 500 by the mail outcome |
| OtpServer.OtpStore.VerifyEmailOtp | server/index.js:203-211 | a missing email or code gives 400 without change; otherwise the validator's outcome and message |
| OtpServer.SendStoresBeforeMail | server/index.js:114-115 | a code stored by a send whose mail failed still verifies |
| OtpServer.AllowedOrigins | server/index.js:27-32 | the origin list holds no empty entry |
| OtpServer.CorsAllowsExactly | server/index.js:38-48 | allowed exactly: no origin, the configured front end, and the three fixed origins |
| AddressController.FirstMissing | server/controller/address.controller.js:23-27 | none exactly when every required key is truthy; otherwise the first falsy key in order |
| AddressController.Admit | server/controller/address.controller.js:3-53 | 400 for a non-object payload; 400 "zipcode must be a number" when every key is truthy but `Number(zipcode)` is NaN; success exactly when all keys are truthy and the zip code is a number; renamed fields, the zip code's number and the owner |
| AddressController.ExponentZipAdmitted | server/controller/address.controller.js:43-47 | a zip code such as "1e3" or "1e-3" is admitted with its scaled value |
| AddressController.ReportsFirstMissing | server/controller/address.controller.js:23-27 | the reply names the first missing key in the fixed order |
| AddressController.SpacesZipReadsAsZero | server/controller/address.controller.js:43-47 | a zip of spaces is truthy and reads as 0 |
| AddressController.GuestOwnersAgree | server/controller/address.controller.js:29-32 | a guest's address and a guest's order with it name the same owner |
| AddressController.AddressBook.AddAddress | server/controller/address.controller.js:3-58 | a refused request stores nothing; an admitted one stores its document under a fresh id |
| AddressController.AddressBook.GetAddress | server/controller/address.controller.js:61-65 | exactly the caller's stored addresses, each as many times as it is stored |
| AddressController.OwnedBelow | server/controller/address.controller.js:64 | the caller's documents below a bound, all of them, each as often as its ids |
| ProductController.ReadUnitValue | server/controller/product.controller.js:24-29 | undefined, null or '' is not given; otherwise the value is kept exactly when `Number()` of it is a number above 0 (Infinity included), else it is bad |
| ProductController.AllowedUnit | server/controller/product.controller.js:37 | a unit is kept only when it is kg, gm or liter |
| ProductController.NewProduct | server/controller/product.controller.js:4-40 | success exactly with five truthy fields, an image and a valid unitValue; fields copied, unit whitelisted, unitValue stored as `Number(unitValue)` when given |
| ProductController.Updated | server/controller/product.controller.js:139-153 | each field changes only as given; a bad unitValue refuses the whole update |
| ProductController.EmptyUpdateKeepsProduct | server/controller/product.controller.js:139-153 | an update that provides nothing changes nothing |
| ProductController.UpdateIdempotent | server/controller/product.controller.js:126-155 | applying the same update twice equals applying it once |
| ProductController.Catalog.AddProduct | server/controller/product.controller.js:4-56 | a refused product stores nothing; an accepted one is stored under a fresh id |
| ProductController.Catalog.UpdateProduct | server/controller/product.controller.js:126-166 | 404 for an unknown id; a bad unitValue stores nothing; otherwise the updated product is saved |
| ProductController.Catalog.AssignFields | server/controller/product.controller.js:139-145 | the field-by-field assignments compute the partial update |
| ProductController.Catalog.ChangeStock | server/controller/product.controller.js:97-121 | inStock is stored exactly as given; 404 for an unknown id |
| ProductController.Catalog.DeleteProduct | server/controller/product.controller.js:59-71 | the product is removed, or 404 when unknown |
| AuthSeller.TokenOf | server/middlewares/authSeller.js:5-13 | a non-empty cookie wins; else the text after "Bearer "; else no token |
| AuthSeller.ReadToken | server/middlewares/authSeller.js:5-13 | the step-by-step extraction computes that token |
| AuthSeller.BearerRoundTrip | server/middlewares/authSeller.js:10-11 | a token sent as "Bearer " + token is read back as itself |
| AuthSeller.CookieFirst | server/middlewares/authSeller.js:5-8 | the cookie wins over any header |
| AuthSeller.OtherSchemeNoToken | server/middlewares/authSeller.js:10 | "bearer " or another scheme yields no token |
| AuthSeller.Authorize | server/middlewares/authSeller.js:15-50 | 401 without a token or with a failed verification; pass exactly when the decoded email equals SELLER_EMAIL; a verified token with another email gets 403 |
| AuthSeller.AuthorizeNormalised | server/middlewares/authSeller.js:28-42 | the corrected guard passes exactly when the decoded email equals the trimmed, lower-cased SELLER_EMAIL, and gives 403 to any other verified token |
| AuthSeller.GuardsAgreeOnNormalisedConfig | server/middlewares/authSeller.js:30 | with an already normalised SELLER_EMAIL both guards decide alike |
| AuthSeller.UnconfiguredPassesEmailless | server/middlewares/authSeller.js:30 | with no SELLER_EMAIL, the guard passes a valid token that carries no email |
| SellerController.SellerLogin | server/controller/seller.controller.js:3-51 | 500 when unconfigured; a token exactly when the normalised emails agree and the password is equal; the claims carry the normalised email; once configured, a string (or falsy) email is otherwise refused with 400 "Invalid credentials", and a truthy non-string email with 500 |
| SellerController.LoginIgnoresCaseAndSpaces | server/controller/seller.controller.js:16-19 | with matching normalised emails, login succeeds exactly on the right password |
| SellerController.LoginWithText | server/controller/seller.controller.js:16-46 | with string inputs, login issues the normalised email exactly when the password is equal and the normalised emails agree, else "Invalid credentials" |
| SellerController.CheckAuth | server/controller/seller.controller.js:54-83 | success exactly when the guard would pass the token found the same way |
| SellerController.CapitalisedEmailChanges | server/controller/seller.controller.js:7 | an email starting with a capital letter is changed by normalising |
| SellerController.LoginThenForbidden | server/middlewares/authSeller.js:30 | for a configured email that is not normalised, a login with it succeeds and its token is then refused with 403 |
| SellerController.IssuedTokenAccepted | server/controller/seller.controller.js:19-20 | every token a login issues passes the corrected guard |
| CartStore.Added | client/src/context/AppContext.jsx:90-101 | one more of a held item, else 1; other keys unchanged; a new key goes last |
| CartStore.Removed | client/src/context/AppContext.jsx:131-141 | one fewer of a held item, deleting it at zero; an item not held leaves the cart unchanged |
| CartStore.Updated | client/src/context/AppContext.jsx:104-110 | exactly the given quantity, kept even at zero; other keys unchanged |
| CartStore.AddThenRemove | client/src/context/AppContext.jsx:90-141 | add then remove restores the cart exactly unless the item was held at 0 or -1 |
| CartStore.AddThenRemoveAbsent | client/src/context/AppContext.jsx:90-141 | add then remove of an item not in the cart restores it |
| CartStore.CountAfterAdd | client/src/context/AppContext.jsx:90-118 | adding raises the count by one |
| CartStore.CountAfterRemove | client/src/context/AppContext.jsx:112-141 | removing lowers the count by one exactly when the item is held |
| CartStore.AmountDefinedIff | client/src/context/AppContext.jsx:120-129 | the amount exists exactly when every positive key names a loaded product |
| CartStore.AmountNotNegative | client/src/context/AppContext.jsx:124-126 | with non-negative prices the amount is not negative |
| CartStore.NoAmountPersists | client/src/context/AppContext.jsx:122-126 | a key that throws makes the whole total throw |
| CartStore.CartContext.AddToCart | client/src/context/AppContext.jsx:90-101 | the cart becomes the added cart |
| CartStore.CartContext.UpdateCartItem | client/src/context/AppContext.jsx:104-110 | the cart becomes the updated cart |
| CartStore.CartContext.RemoveFromCart | client/src/context/AppContext.jsx:131-141 | the cart becomes the removed cart |
| CartStore.CartContext.CartCount | client/src/context/AppContext.jsx:112-118 | the loop sums the quantities in key order |
| CartStore.CartContext.TotalCartAmount | client/src/context/AppContext.jsx:120-129 | the loop computes the amount over positive keys, or fails where the source throws |
| CartPage.ThrowsAt | client/src/pages/Cart.jsx:8-26 | a component body throws at its first declaration that reads a name bound only later in the body, and nothing before it throws |
| CartPage.RunsThroughIff | client/src/pages/Cart.jsx:8-26 | a body runs through exactly when no declaration reads a later-bound name |
| CartPage.RenderThrows | client/src/pages/Cart.jsx:12-26 | as written, the fourth declaration (the shipping computation) throws on every render |
| CartPage.ReorderedRuns | client/src/pages/Cart.jsx:10-26 | with the context destructured first, the body runs through |
| CartPage.Shipping | client/src/pages/Cart.jsx:10-13 | free from 500000, else 30000 |
| CartPage.DisplayedTotalBounds | client/src/pages/Cart.jsx:268 | the shown total is the subtotal plus at most the fee, equal to it exactly from the threshold |
| CartPage.RowsFaithful | client/src/pages/Cart.jsx:42-52 | each row is a cart key's loaded product with its quantity |
| CartPage.RowsComplete | client/src/pages/Cart.jsx:42-52 | every key that names a loaded product has a row |
| CartPage.RowsInCartOrder | client/src/pages/Cart.jsx:44-48 | rows follow the cart's key order |
| CartPage.PayloadItems | client/src/pages/Cart.jsx:76-79 | one `{product, quantity}` per row |
| CartPage.OrderPayload | client/src/pages/Cart.jsx:71-81 | no request exactly without a selected address `_id`; else the items and that id |
| CartPage.PageSubtotalIsServerSubtotal | client/src/pages/Cart.jsx:75-81 | with loaded prices equal to the server's, the server's subtotal of the sent order is the page's amount |
| CartPage.SelectPayment | client/src/pages/Cart.jsx:223-228 | "Online" is refused and the option stays |
| CartPage.NeverOnline | client/src/pages/Cart.jsx:223-228 | from "COD" no series of selections reaches "Online" |
| CartPage.CartPageState.SelectPaymentOption | client/src/pages/Cart.jsx:223-228 | the option becomes the selection's result |
| CartPage.CartPageState.SyncAddress | client/src/pages/Cart.jsx:55-59 | a truthy address with keys is adopted, else the selection stays |
| CartPage.CartPageState.GetCart | client/src/pages/Cart.jsx:42-52 | the rows become those of the cart and loaded products |
| CartPage.CartPageState.PlaceOrder | client/src/pages/Cart.jsx:69-101 | the request sent follows the guard and option; only a successful COD clears the cart |
| ClientConfig.BackendUrl | client/src/utils/config.js:5-8 | the build URL or the page's, without one trailing "/" |
| ClientConfig.OneSlashStripped | client/src/utils/config.js:7 | only one trailing "/" goes |
| ClientConfig.StripLeadingSlashes | client/src/utils/config.js:21 | every leading "/" is removed and nothing else |
| ClientConfig.StripPrefix | client/src/utils/config.js:22-24 | a literal prefix is removed once when present |
| ClientConfig.ImageUrl | client/src/utils/config.js:10-28 | "" for no path, an http path unchanged, else backend + "/uploads/images/" + the cleaned path |
| ClientConfig.StoredFormsAgree | client/src/utils/config.js:20-27 | a plain file name stored bare, after "/", "uploads/", "images/" or "uploads/images/" gets one URL |
| ClientConfig.NotPrefixed | client/src/utils/config.js:20-24 | a name with no early "/" carries none of the stripped prefixes |
| ClientConfig.ImageUrlIdempotent | client/src/utils/config.js:14-27 | with an http backend, an image URL maps to itself |
| AddressForm.EmailOkIffPattern | client/src/pages/Address.jsx:6 | the email check holds exactly for `[^\s@]+@[^\s@]+\.[^\s@]+` |
| AddressForm.RequiredErrors | client/src/pages/Address.jsx:25-42 | an error exactly for each empty required field, "<Field> required" |
| AddressForm.Errors | client/src/pages/Address.jsx:24-47 | errors for empty fields and a bad email, "Invalid email format" for a non-empty one |
| AddressForm.ValidIff | client/src/pages/Address.jsx:48-49 | valid exactly when every field is filled and the email passes |
| AddressForm.MissingFields | client/src/pages/Address.jsx:38-42 | the loop collects the required-field errors |
| AddressForm.CollectErrors | client/src/pages/Address.jsx:24-47 | the validation collects the form's errors |
| AddressForm.NewAddress | client/src/pages/Address.jsx:112-122 | the posted body has exactly the nine form fields |
| AddressForm.AddressPage.HandleChange | client/src/pages/Address.jsx:19-22 | the field is set and its error cleared; nothing else changes |
| AddressForm.AddressPage.Validate | client/src/pages/Address.jsx:24-50 | the errors are the form's errors, and the result says there are none |
| AddressForm.AddressPage.SendEmailOtp | client/src/pages/Address.jsx:52-70 | a bad email sets an error and sends nothing; otherwise one request, and otpSent on delivery |
| AddressForm.AddressPage.VerifyOtp | client/src/pages/Address.jsx:72-92 | no code sends nothing; an accepted code verifies the current email |
| AddressForm.AddressPage.HandleSubmit | client/src/pages/Address.jsx:94-139 | invalid sets the errors and stops with nothing else changed; not sent clears the errors, sends a code, sets otpSent on delivery and the status to the OTP message or the failure reason; not verified stops; only then the POST, carrying the verified email |
| ProductsPage.VisibleIff | client/src/pages/Products.jsx:9-23 | listed exactly when in stock and, with a query, its lower-cased name contains the lower-cased query |
| ProductsPage.VisibleInOrder | client/src/pages/Products.jsx:11-21 | the listing is an order-preserving subsequence of the products |
| ProductsPage.EmptyQueryListsInStock | client/src/pages/Products.jsx:19-21 | an empty query lists every in-stock product |
| BestSeller.BestSellers | client/src/components/BestSeller.jsx:13-16 | at most five products |
| BestSeller.ShownAreInStock | client/src/components/BestSeller.jsx:8-14 | shown products are in stock, and match a non-blank query |
| BestSeller.BlankQueryFirstFive | client/src/components/BestSeller.jsx:15-17 | a blank query shows the first five in-stock products |
| BestSeller.AgreesWithProductsPage | client/src/components/BestSeller.jsx:9-14 | a non-blank query shows the first five of the products page's listing |
| SellerCategories.CategoryKeyMeaning | client/src/pages/seller/Categories.jsx:30 | the key is the trimmed category, or "Others" when it is empty or blank; never empty |
| SellerCategories.CountOf | client/src/pages/seller/Categories.jsx:57 | an absent category counts 0 |
| SellerCategories.TallyOf | client/src/pages/seller/Categories.jsx:27-34 | every key counted is at least 1, each key once |
| SellerCategories.CategoryCounts | client/src/pages/seller/Categories.jsx:27-34 | the loop computes the tally |
| SellerCategories.CountsAddUp | client/src/pages/seller/Categories.jsx:27-34 | the counts sum to the number of products |
| SellerCategories.CountIsToMove | client/src/pages/seller/Categories.jsx:57-67 | a category's count is the number of products to move |
| SellerCategories.AbsentIffNoProducts | client/src/pages/seller/Categories.jsx:57 | the count is 0 exactly when no product has that key |
| SellerCategories.GuardSkipsNothing | client/src/pages/seller/Categories.jsx:66-67 | the count guard never skips a product that should move |
| SellerCategories.MoveRequests | client/src/pages/seller/Categories.jsx:68-74 | one update to "Others" per product to move, in order |
| SellerCategories.DeleteCategory | client/src/pages/seller/Categories.jsx:56-77 | no request without confirmation; else the moves, then the delete |
| SellerCategories.EmptiedAfterMove | client/src/pages/seller/Categories.jsx:66-74 | after the moves the deleted category counts 0 |
| SellerCategories.OthersGainsMoved | client/src/pages/seller/Categories.jsx:66-74 | after the moves "Others" counts its old count plus the moved ones |
| Js.TrimEmptyIffBlank | server/controller/seller.controller.js:7 | `trim()` gives "" exactly for white space alone |
| Js.ToLower | server/controller/seller.controller.js:16 | `toLowerCase` maps each capital letter to its small letter and keeps the rest |
| Js.DigitsRead | server/controller/address.controller.js:43 | `Number()` of decimal digits is their value, leading zeros included, and with "-" its negation |
| Js.DecimalStringReadsBack | server/controller/address.controller.js:43 | the decimal string of n reads back as n |
| Js.ExponentRead | server/controller/address.controller.js:43 | digits, "e" or "E", an optional "-" and digits read as the mantissa scaled by the power of ten |
| Js.RadixRead | server/controller/product.controller.js:25 | a `0x`, `0o` or `0b` literal reads in its base; with a sign in front it is NaN |
| Js.InfinityRead | server/controller/product.controller.js:25 | "Infinity", "+Infinity" and "-Infinity" read as infinities of that sign |
| Js.SingletonArrayRead | server/controller/product.controller.js:25 | an array of one string, number or array reads as that element; two elements give NaN |

## Left out

- Stripe: the session request and its price transform (floating point, a foreign API). Only the order written before the request is modelled, with its success as a parameter.
- Mail: every send and template (SMTP and file-system I/O). Mail outcomes are parameters, and their failures are swallowed as in the source.
- MongoDB: queries, `populate`, `countDocuments` and casts become maps. The `ObjectId` validity test is a parameter of the listing, and `createdAt` order is id order.
- The seller search's regular expression is a parameter (`matcher`); a pattern that does not compile is the 500 answer.
- Randomness and time: `Math.random` is the `draw` parameter, and `Date.now()` is `now`.
- Token signing and verification are parameters (`verify`). Cookie options and the seven-day lifetime are not modelled beyond a constant.
- The older server's CORS setting (`backend/index.js:27-29`) is a library configuration, not a decision of its own.
- Non-numeric query strings in the seller listing: page and limit are taken as integers already.
- `String()` of a non-string email or category: request emails and product categories are strings in the model.
- Keys such as `__proto__` in the OTP store and the category counts object are not modelled.
- `changeStock` with `inStock` undefined: the model stores the value given.
- CartStore.CartContext.TotalCartAmount: works over integer prices, where the `Math.floor(x*100)/100` step changes nothing.
- CartPage.CartPageState.GetCart: does not model the mutation of the shared product object (`product.quantity = ...`); rows carry the quantity instead.
- `structuredClone` of an undefined cart, and keys that look like numbers and reorder in a JavaScript object.
- Js.ToLower: covers ASCII letters only, as does the capitalisation of form error messages.
- React rendering, navigation, toasts and loading flags. The `window.confirm` answer is the `confirmed` parameter.
- SellerCategories.DeleteCategory: a failed category update is swallowed by the source; `Reassigned` models the moves as all succeeding.
- Adding and fetching categories, and the product reload after the moves.
- The address context's write-back after a submit; the initial address is a constructor parameter.
- CartPage: apart from `RenderThrows`, the page is modelled with the context destructured before the shipping computation; as written it renders nothing (see "## Findings").
- Server request bodies are typed in the model. `isPaid` is a boolean; a value Mongoose cannot cast gives 500. `items` is a list; a truthy non-array gives 500 on the online and older paths, while on cash on delivery it counts as no items. A quantity is an integer or missing; a non-numeric string passes the cash-on-delivery check and then gives a NaN amount and 500. Product prices are integers.
- Js: `Number()` works on exact reals, not IEEE doubles. Rounding, overflow to Infinity (for instance "1e400") and -0 are not modelled, and numbers in a JSON body are finite.
- OrderController.PlaceCod, OrderController.PlaceOnline, LegacyOrderController.LegacyPlace: ids are looked up as map keys. A malformed address or product id, which makes Mongoose's cast fail and the handler answer 500, is read here as an absent key: 400 "Address not found" or "Product not found" (on the older path the 500 agrees). On the online path a malformed address string is stored as given, where `Order.create` would fail its cast with 500; an object address is stored as the empty reference and refused with 500, where Mongoose would store its `_id`.
- OrderController.PlaceOnline: the controller itself does not require a user; the route's middleware does, which is not part of this model.

## Findings

| source | as written | input that shows it | evidently intended | confidence | as-written member | corrected member |
|---|---|---|---|---|---|---|
| server/middlewares/authSeller.js:30 | the guard compares the token's email with the raw `SELLER_EMAIL`, while login signs the trimmed, lower-cased email | `SELLER_EMAIL` "Ab@x.co": logging in with "Ab@x.co" succeeds, then every guarded route answers 403 | compare with the trimmed, lower-cased `SELLER_EMAIL`, as login does | not executed | SellerController.LoginThenForbidden | AuthSeller.AuthorizeNormalised |
| client/src/pages/Cart.jsx:12-13 | `computedShipping` calls `cartSubtotal()`, which reads `totalCartAmount` before the `useAppContext()` destructuring at lines 14-26 binds it | any render of the cart page: the read is in the temporal dead zone and throws a `ReferenceError` | destructure the context first, then compute the shipping | not executed | CartPage.RenderThrows | CartPage.ReorderedRuns |
