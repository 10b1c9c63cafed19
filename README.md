# Favour Crochet shop: store, page handlers and backend rules in Dafny

This project models the logic of the Favour Crochet shop: a Next.js storefront for African-style
crochet wear, with a Django REST backend.

**The client-side store.** The store (`frontend/store/useStore.js`) holds the cart, the wishlist,
the product filters, the signed-in user and two UI flags. In the model it is the class
`Store.Store`.
- Each command replaces one or more fields. A command's contract states the whole new state as a
  function of the old one.
- The cart and wishlist transformations are pure functions in `CartLines` and `Wishlist`. The
  lemmas about them prove the shop's promises:
  - there is at most one line per (product id, options);
  - `updateQuantity` touches one line only;
  - the totals move by exactly the changed line's share;
  - the wishlist never holds a product id twice;
  - and the other facts listed below.

**The page handlers.** The cart drawer, checkout page and products page each have a handler module:
- `CartDrawer` dispatches store commands from the cart drawer.
- `Checkout` covers the three-step wizard, the form record, the empty-cart guard, the card ending
  and submit.
- `ProductsPage` covers the search/category filter, the results label, add to cart and the wishlist
  toggle.

**The backend.** Three modules cover the backend rules:
- `Models`: stock availability, slug and order-number defaulting, and the order-item line total.
- `Views`: the product queryset filter chain, `featured`, `african_styles`, `by_category` and
  order status updates.
- `Permissions`: the read-only / API-key permission check.

**Representation choices.**
- Prices are integers in minor units.
- Quantities are unbounded integers. `addToCart` accepts any quantity unchecked, while
  `updateQuantity` removes a line for a quantity of 0 or less and the cart drawer removes one
  below 1.
- Cart options are an ordered list of key/value pairs. They are compared by sequence equality,
  as `JSON.stringify` compares them (key order matters).
- Line ids, `uuid4().hex`, `slugify` and decimal parsing of query parameters are supplied by the
  caller.
- `toLowerCase`/`upper()` act on ASCII letters only.
- A product's category travels as a JS value, either a number or a string. This keeps the page's
  strict `===` comparison with the category `<select>` string exact.
- The product list endpoint never sends `description` (`ProductListSerializer` leaves it out), so
  on the products page no product has one. A product without a description makes the page's filter
  throw when its title does not include the query; with the list payload, any query that some
  product's title misses throws. The model represents that as the filter yielding `None`.

## Model

| member | source | states |
|---|---|---|
| CartLines.AddMatchingLine | frontend/store/useStore.js:9-23 | when line `i` has the product's id and options (keys unique), adding puts `quantity` on that line only; the number of lines stays the same; the total grows by that line's price × quantity and the item count by quantity |
| CartLines.AddNewLine | frontend/store/useStore.js:24-33 | with no line of that id and options, adding appends exactly one line (the product, quantity, options, fresh id) after the unchanged earlier lines; total and count grow by the new line's share |
| CartLines.AddToCart | frontend/store/useStore.js:9-34 | after adding, a line with the product's id and options exists; the cart keeps its length when such a line existed and grows by one otherwise |
| CartLines.AddTwiceMerges | frontend/store/useStore.js:9-34 | adding the same product with the same options twice, `q1` then `q2`, equals adding it once with `q1 + q2` (one line, first line id kept) |
| CartLines.AddDistinctOptions | frontend/store/useStore.js:9-34 | adding the same product with two different option lists, neither in the cart, appends two separate lines in order |
| CartLines.AddKeepsInvariant | frontend/store/useStore.js:11-33 | adding keeps "at most one line per (id, options)" and distinct line ids, given a fresh id |
| CartLines.RemoveFromCart | frontend/store/useStore.js:37-41 | afterwards no line has the removed line id, and the cart is no longer |
| CartLines.RemoveKeepsOthers | frontend/store/useStore.js:37-41 | removing by line id keeps, in their original order, exactly the lines with a different line id |
| CartLines.RemoveUnknown | frontend/store/useStore.js:37-41 | removing an unknown line id leaves the cart unchanged |
| CartLines.RemoveKnown | frontend/store/useStore.js:37-41 | removing the id of line `i` (ids unique) deletes just position `i`; total and count drop by its share |
| CartLines.RemoveKeepsInvariant | frontend/store/useStore.js:37-41 | removal keeps unique keys and unique line ids |
| CartLines.DeleteKeepsInvariant | frontend/store/useStore.js:37-41 | deleting any one position keeps unique keys and unique line ids |
| CartLines.UpdateQuantity | frontend/store/useStore.js:44-55 | quantity ≤ 0: no line with that id remains; quantity > 0: the length is kept and every line with that id has exactly the new quantity |
| CartLines.UpdateKnown | frontend/store/useStore.js:44-55 | for a positive quantity, updating line `i`'s id sets that line's quantity to exactly the value (absolute, not a delta) and changes no other line; totals change by that line's difference |
| CartLines.UpdateUnknown | frontend/store/useStore.js:44-55 | updating an unknown line id with a positive quantity leaves the cart unchanged |
| CartLines.UpdateKeepsInvariant | frontend/store/useStore.js:44-55 | updating (including the removal branch for quantity ≤ 0) keeps unique keys and unique line ids |
| CartLines.EmptyCartTotals | frontend/store/useStore.js:58 | the empty cart has total 0 and item count 0 |
| CartLines.TotalsOfAppend | frontend/store/useStore.js:64-70 | the reduce step: an appended line adds its price × quantity to the total and its quantity (not 1) to the item count |
| CartLines.Total | frontend/store/useStore.js:64-66 | `getCartTotal`: the left fold of price × quantity over the lines, starting at 0 |
| CartLines.ItemsCount | frontend/store/useStore.js:68-70 | `getCartItemsCount`: the left fold of quantity over the lines, starting at 0 |
| CartLines.CountZeroIffEmpty | frontend/store/useStore.js:68-70 | when every quantity is at least 1, the item count is non-zero exactly when the cart has a line |
| CartLines.NonPositiveQuantityHidesLines | frontend/store/useStore.js:9-33 | since `addToCart` does not validate quantities, a cart with two lines can have item count 0 |
| Wishlist.InWishlist | frontend/store/useStore.js:126-128 | `wishlist.some(item => item.id === productId)`: some entry has that id |
| Wishlist.AddToWishlist | frontend/store/useStore.js:113-118 | the old wishlist is kept as a prefix and at most one entry is added |
| Wishlist.RemoveFromWishlist | frontend/store/useStore.js:120-124 | an order-preserving subsequence of the old wishlist, never longer (exact membership: `RemovedIsOut`) |
| Wishlist.AddedIsIn | frontend/store/useStore.js:113-118 | after adding, the product's id is in the wishlist; an id already present leaves the list unchanged (the first snapshot wins); otherwise the product is appended |
| Wishlist.AddTwice | frontend/store/useStore.js:113-118 | adding the same product twice is the same as adding it once |
| Wishlist.AddKeepsUnique | frontend/store/useStore.js:113-118 | adding never creates a second entry with the same id |
| Wishlist.RemovedIsOut | frontend/store/useStore.js:120-124 | after removal the id is absent; every other id's membership is unchanged |
| Wishlist.RemoveKeepsUnique | frontend/store/useStore.js:120-124 | removal keeps ids unique |
| Store.Store.constructor | frontend/store/useStore.js:3-111 | the initial state: empty cart and wishlist, closed cart and menu, default filters, no user, not authenticated |
| Store.Store.AddToCart | frontend/store/useStore.js:9-34 | only the cart changes, to the pure merge-or-append result; the store invariant is kept |
| Store.Store.RemoveFromCart | frontend/store/useStore.js:37-41 | only the cart changes, to the lines with a different line id |
| Store.Store.UpdateQuantity | frontend/store/useStore.js:44-55 | quantity ≤ 0 is `removeFromCart`; otherwise only that line's quantity changes; no other field changes |
| Store.Store.ClearCart | frontend/store/useStore.js:58 | only the cart changes, to empty; total and item count are then 0 |
| Store.Store.GetCartTotal | frontend/store/useStore.js:64-66 | the cart total of the current cart (see `CartLines.Total`) |
| Store.Store.GetCartItemsCount | frontend/store/useStore.js:68-70 | the item count of the current cart (see `CartLines.ItemsCount`) |
| Store.Store.IsInWishlist | frontend/store/useStore.js:126-128 | membership of the id in the current wishlist (see `Wishlist.InWishlist`) |
| Store.Store.ToggleCart | frontend/store/useStore.js:61 | only `cartOpen` flips |
| Store.Store.UpdateFilters | frontend/store/useStore.js:81-85 | shallow merge: the keys are the union, new values win, other filters keep their values, nothing else changes |
| Store.Store.ClearFilters | frontend/store/useStore.js:87-97 | only the filters change, back to the five defaults |
| Store.Store.SetUser | frontend/store/useStore.js:103 | the user is set and `isAuthenticated` is whether one is given |
| Store.Store.Logout | frontend/store/useStore.js:104 | user cleared, not authenticated, cart empty (totals 0); wishlist, filters and UI flags untouched |
| Store.Store.ToggleMobileMenu | frontend/store/useStore.js:108 | only `mobileMenuOpen` flips |
| Store.Store.AddToWishlist | frontend/store/useStore.js:113-118 | only the wishlist changes; afterwards `isInWishlist(product.id)` holds |
| Store.Store.RemoveFromWishlist | frontend/store/useStore.js:120-124 | only the wishlist changes; afterwards `isInWishlist(productId)` is false |
| CartDrawer.QuantityChanged | frontend/components/Cart.js:22-29 | the handler's outcome is always that of `updateQuantity` alone; below 1 no line with that id remains |
| CartDrawer.QuantityChangeEffect | frontend/components/Cart.js:22-29 | for a line's id, a new quantity below 1 deletes exactly that line; otherwise that line's quantity becomes exactly the value and nothing else changes; agrees with `updateQuantity` alone |
| CartDrawer.MinusButtonEffect | frontend/components/Cart.js:153 | minus on a line of quantity ≤ 1 removes it; otherwise lowers it by exactly one |
| CartDrawer.PlusButtonEffect | frontend/components/Cart.js:164 | plus raises a non-negative quantity by exactly one (and removes a line whose quantity was negative) |
| CartDrawer.HandleQuantityChange | frontend/components/Cart.js:22-29 | only the cart changes, to the remove-or-update result |
| CartDrawer.HandleRemoveItem | frontend/components/Cart.js:31-34 | only the cart changes; exactly the lines with a different line id remain |
| CartDrawer.DecreaseQuantity | frontend/components/Cart.js:153 | the handler is called with the line's quantity − 1 |
| CartDrawer.IncreaseQuantity | frontend/components/Cart.js:164 | the handler is called with the line's quantity + 1 |
| CartDrawer.ClearCartButton | frontend/components/Cart.js:186-189 | only the cart changes, to empty |
| Checkout.NextStep | frontend/pages/checkout.js:34-38 | a step in 1..3 stays in 1..3; below 3 it moves up by one |
| Checkout.PrevStep | frontend/pages/checkout.js:40-44 | a step in 1..3 stays in 1..3; above 1 it moves down by one |
| Checkout.ShowsCheckoutForm | frontend/pages/checkout.js:55-82 | the form is shown exactly when `getCartItemsCount()` is not 0 |
| Checkout.StepMoves | frontend/pages/checkout.js:34-44 | Next on step 3 and Previous on step 1 do nothing; otherwise each moves by exactly one |
| Checkout.WalkStaysInRange | frontend/pages/checkout.js:34-44 | any sequence of Next/Previous presses from a step in 1..3 stays in 1..3 |
| Checkout.NextPresses | frontend/pages/checkout.js:34-38 | n Next presses from step s reach min(s + n, 3) |
| Checkout.GuardMatchesNonEmptyCart | frontend/pages/checkout.js:55-82 | with quantities ≥ 1 the checkout form is shown exactly when the cart is non-empty |
| Checkout.CardEnding | frontend/pages/checkout.js:334 | the card ending is the last min(4, length) characters of the card number, a suffix of it |
| Checkout.CheckoutPage.constructor | frontend/pages/checkout.js:8-25 | the step starts at 1; the form holds the twelve fields, all empty except country "suriname" |
| Checkout.CheckoutPage.HandleNextStep | frontend/pages/checkout.js:34-38 | the step advances unless it is 3 and stays in 1..3 |
| Checkout.CheckoutPage.HandlePrevStep | frontend/pages/checkout.js:40-44 | the step goes back unless it is 1 and stays in 1..3 |
| Checkout.CheckoutPage.HandleInputChange | frontend/pages/checkout.js:27-32 | the named field gets the value; every other field keeps its value |
| Checkout.CheckoutPage.HandleSubmitOrder | frontend/pages/checkout.js:46-53 | only the store's cart changes, to empty, so the empty-cart screen follows |
| ProductsPage.MatchesSearch | frontend/pages/products.js:73-74 | throws (None) exactly when the title misses and there is no description; true exactly when the lower-cased title or description includes the lower-cased query |
| ProductsPage.FilteredProducts | frontend/pages/products.js:72-78 | the filter throws exactly when some product has no description and a title that misses the query; otherwise it yields exactly the shown products, in order |
| ProductsPage.FilteredIsShownSubsequence | frontend/pages/products.js:72-78 | the filtered list is an order-preserving subsequence of the loaded products; a product is in it iff its lower-cased title or description includes the lower-cased query and no category is selected or its category `===` the selection |
| ProductsPage.ListPayloadFilter | frontend/pages/products.js:72-78 | with no descriptions (the list payload), the filter throws exactly when some title misses the query, and otherwise shows exactly the products whose category matches |
| ProductsPage.NoCriteriaShowsAll | frontend/pages/products.js:72-78 | an empty query and no selected category show every loaded product |
| ProductsPage.SelectedCategoryHidesNumericIds | frontend/pages/products.js:75 | with numeric category ids, selecting any category shows no product (or the filter throws) |
| ProductsPage.ResultsNoun | frontend/pages/products.js:147 | the label says "product" exactly when the count is 1 and "products" otherwise |
| ProductsPage.ToggledWishlist | frontend/pages/products.js:55-63 | remove the product's id when it is in the wishlist, add the product otherwise |
| ProductsPage.ToggleFlips | frontend/pages/products.js:55-63 | the toggle flips the product's membership and no other id's |
| ProductsPage.ToggleTwice | frontend/pages/products.js:55-63 | toggling an absent product twice restores the wishlist |
| ProductsPage.RepeatedClicksGrowOneLine | frontend/pages/products.js:50-53 | two clicks on "add to cart" create at most one line and raise the item count by 2 |
| ProductsPage.HandleAddToCart | frontend/pages/products.js:50-53 | only the cart changes: one unit with default options is added |
| ProductsPage.HandleWishlistToggle | frontend/pages/products.js:55-63 | only the wishlist changes, and `isInWishlist(product.id)` flips |
| Text.LastChars | frontend/pages/checkout.js:334 | `slice(-n)`: for n ≥ 1 the result has min(n, length) characters, for n = 0 (`slice(-0)`) it is the whole string; always a suffix of the input |
| Models.IsInStock | backend/products/models.py:94-96 | in stock exactly when the stock quantity is positive or the product is made to order |
| Models.ProductModel.InStock | backend/products/models.py:94-96 | `is_in_stock` of the product's current fields |
| Models.IsStatusCode | backend/products/models.py:115-123 | the value is the stored code of one of the `STATUS_CHOICES` |
| Models.SlugDefaulting | backend/products/models.py:20-23 | a non-empty slug is never changed; an empty one becomes the slugified source; a second save changes nothing |
| Models.GeneratedOrderNumber | backend/products/models.py:158 | "FC" followed by 8 upper-case hex digits, 10 characters; the digits are the first 8 of the uuid hex, upper-cased |
| Models.StatusCodes | backend/products/models.py:115-123 | the status codes are exactly pending, confirmed, in_progress, ready, shipped, delivered, cancelled |
| Models.CategoryModel.Save | backend/products/models.py:20-23 | the slug is `slugify(name)` only if it was empty |
| Models.ProductModel.constructor | backend/products/models.py:69-71 | stock defaults to 0, custom order to false, delivery days to 7 (all non-negative integers) |
| Models.ProductModel.Save | backend/products/models.py:89-92 | the slug is `slugify(title)` only if it was empty |
| Models.OrderModel.constructor | backend/products/models.py:127 | the status defaults to "pending" |
| Models.OrderModel.Save | backend/products/models.py:155-159 | the order number is generated only when empty; a generated one has length 10 |
| Models.OrderItemModel.Save | backend/products/models.py:180-182 | the total becomes unit price × quantity, overwriting any previous value |
| Views.GetQueryset | backend/products/views.py:38-61 | the chain of conditional filters yields exactly the table filtered by the conjunction of all the conditions that apply |
| Views.QuerysetContents | backend/products/views.py:25-61 | the result is an order-preserving subsequence of the table; a row is in it iff it is active, matches a non-empty style, lies within non-empty inclusive price bounds, and (when `in_stock == 'true'`) `is_in_stock` holds |
| Views.NoParamsKeepsActive | backend/products/views.py:25 | without query parameters the result is every active product |
| Views.Featured | backend/products/views.py:63-68 | the filtered queryset restricted to featured products, as a subsequence of the table |
| Views.AfricanStyleOptions | backend/products/views.py:70-74 | one value/label option per `AFRICAN_STYLES` choice, in order (11 of them) |
| Views.CategoryProductsBound | backend/products/views.py:83 | each category lists at most 6 products, each of that category, in the table and passing the query filters |
| Views.ByCategory | backend/products/views.py:76-90 | one group per active category, in order, each holding the first 6 filtered products of that category |
| Views.UpdateStatus | backend/products/views.py:119-133 | 200 exactly when the value is one of the seven status codes, with the status stored and the order saved; otherwise 400 and the order unchanged |
| Permissions.HasPermission | backend/products/permissions.py:13-19 | safe methods are always allowed; a write is refused when the admin key is unset or empty, and otherwise allowed iff the header equals the key |
| Permissions.WritesNeedTheKey | backend/products/permissions.py:16-19 | an allowed write implies a non-empty configured key that the header repeats exactly |

## Left out

- Rendering, animation, styling, toasts, `console.log` and `alert` of the pages and components are
  not modelled; only their state changes are.
- Tax, shipping and grand totals are left out because they use floating-point rates and currency
  formatting. The cart subtotal is covered by `Total`.
- `localStorage` hydration, the axios clients and the React/Zustand subscription machinery are left
  out because they are I/O.
- Line ids (`Date.now() + Math.random()`) are a fresh integer supplied by the caller. The precondition
  that the id is not in use stands in for the practical uniqueness of clock-plus-random ids.
- Store.Store.SetUser: `!!user` is modelled as "a user is given" (`Some`). The model does not cover
  other falsy values passed as a user.
- ProductsPage.FilteredProducts: the exception of the source is modelled as `None`. The model does
  not say which product threw, and it does not model the page's state after an exception.
- JS numbers are unbounded integers. Float prices and float rounding are not modelled.
- `toLowerCase`/`toUpperCase`/`upper()` map ASCII letters only. Unicode case mapping is not
  modelled.
- Django's `slugify`, `uuid.uuid4()` and decimal parsing of the `min_price`/`max_price` parameters
  are caller-supplied. An unparseable price parameter, which makes the database query fail, is not
  modelled.
- Persistence (`super().save()`), `get_object()` (including its 404), the `IsAuthenticated` and
  `IsAdminOrReadOnly` wiring on the view sets, and the serializers are left out because they belong
  to the framework.
- The list endpoint's `DjangoFilterBackend`, `SearchFilter` and `OrderingFilter` are not modelled.
  They act in `filter_queryset` on the list action, not in `get_queryset`.
- Database ordering (`-created_at`, the unordered category query) is the order of the given table.
- Views.UpdateStatus: `request.data.get('status')` is modelled as an optional string. The model
  does not cover non-string JSON values, which are never status codes.
- The `DecimalField` digit limits and the `CharField` length limits are not modelled.
- The checkout form submits only on the review step. The model does not cover that gating, because
  it lives in the JSX.
- Permissions.HasPermission reads only the method, the header and the configured key. That holds
  because these are its only parameters; no separate lemma states it.
