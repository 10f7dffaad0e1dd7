# Storefront core, modelled in Dafny

This project models the sequential logic of a Next.js storefront, in the storefront's own
terms. It covers:

- the cart and the checkout page (order summary, form check, "Place order");
- the three ways an order is created: cash on delivery, a hosted Stripe checkout, and the
  Stripe webhook;
- the Order and Product schemas and their pricing hooks;
- the product catalog route (slug, creation, filter, pagination);
- the client-side wishlist and "Buy Now" on the product page;
- the account logic: registration, the credentials check, the NextAuth callbacks, Google
  sign-in, the profile route and the User schema.

The files follow the storefront's layout. There is one module per source file:

| module | source file |
|---|---|
| `CheckoutPage` | `src/app/checkout/page.tsx` |
| `CartPage` | `src/app/cart/page.tsx` |
| `ProductsPage` | `src/app/products/page.tsx` |
| `WishlistHook` | `src/hooks/useWishlist.ts` |
| `OrdersRoute` | `src/app/api/orders/route.ts` |
| `StripeCheckout` | `src/app/api/stripe/checkout/route.ts` |
| `StripeWebhook` | `src/app/api/stripe/webhook/route.ts` |
| `ProductsRoute` | `src/app/api/products/route.ts` |
| `RegisterRoute` | `src/app/api/auth/register/route.ts` |
| `UsersMeRoute` | `src/app/api/users/me/route.ts` |
| `AuthOptions` | `src/lib/authOptions.ts` |
| `OrderModel` | `src/models/Order.ts` |
| `ProductModel` | `src/models/Product.ts` |
| `UserModel` | `src/models/User.ts` |

A few shared modules model what JavaScript provides:

- `JsString`: `trim`, `toLowerCase` (ASCII letters only), `length` (in UTF-16 code units),
  `split(' ')` and `join(' ')`.
- `JsNumber`: `Math.round`, `Math.ceil` and `Number(x.toFixed(2))`, all on exact decimals.
- `JsSet`: a `Set` is a sequence without duplicates, in insertion order.
- `Json`: a JSON value tree.
- `Shop`: cart lines, the shipping form and the session user.
- `Wrappers`: `Option`.

## How the model is built

**Form.**
- State that the source changes in place is a class with `modifies` methods. Examples: the
  cart and checkout views, the wishlist hook, the order and user documents and their
  `pre('save')` hooks, and the order, product and user stores.
- Pure computations are functions. Their properties are lemmas.

**Money.** Amounts are `real`. `Math.round(x)` is `floor(x + 0.5)`. `toFixed(2)` rounds to
the nearest cent, with halves rounded away from zero. Binary floating point is not modelled.

**Strings.** A `string` is a sequence of Unicode scalar values. JavaScript's `length`
counts UTF-16 code units, so `JsString.Length` counts a character above U+FFFF twice. The
schema's `minlength`/`maxlength` checks and the routes' password-length checks use it.

**Stores.**
- The order store is the sequence of inserted records. A record's position stands for its
  creation time.
- The user store is a map keyed by the stored, lower-case email. The unique index makes the
  email a key.

**Foreign code becomes parameters.** Each of the following is a parameter of the operation
that uses it:
- Stripe's `webhooks.constructEvent`, `checkout.sessions.create` and
  `checkout.sessions.retrieve`;
- what `loadStripe`, the server and the storage write answer;
- the id the database assigns;
- the record `findById` returns.

**The session.** The NextAuth session is an explicit `(id, role)` value.

**bcrypt.**
- `Hash(p)` is a concrete stand-in, `"$2b$" + p`, without the salt.
- `Matches(c, h)` holds exactly when `h == Hash(c)`.
- The property of bcrypt the storefront relies on is proved for this stand-in: a candidate
  matches the hash of a password exactly when it is that password. bcrypt itself (bcryptjs)
  hashes only the first 72 UTF-8 bytes of a password, so for real hashes the property holds
  only for passwords of at most 72 bytes (see "## Left out").

**Mongoose behaviour the routes depend on.**
- A `findOne({ email })` filter is cast through the schema's `lowercase` setter, so every
  lookup by email compares lower-cased emails. This includes the uniqueness check in
  registration.
- Validators run before the user-defined `pre('save')` hooks.
- A new document counts every path it was given as modified.
- `findByIdAndUpdate` with `runValidators` checks the paths it sets. It runs no save hooks.

**Where the model follows the code.**
- The cash-on-delivery `POST /api/orders` answers 200, not 201. It sends the default status.
- `pages` is `null` for `limit=0`, because `Math.ceil(n / 0)` is not a finite number.
- A negative `skip` (page 0 or below) fails with 500.

## Model

| member | source | states |
|---|---|---|
| ClientPricing.SubtotalAppend | src/app/checkout/page.tsx:68 | the subtotal of a concatenation is the sum of the parts, so an empty cart is 0 and one more line adds exactly price × quantity |
| ClientPricing.SubtotalNonNegative | src/app/checkout/page.tsx:68 | prices and quantities that are not negative give a subtotal that is not negative |
| ClientPricing.ShippingFor | src/app/checkout/page.tsx:70 | shipping is 0 exactly when the subtotal is above 100, and 9.99 otherwise |
| ClientPricing.QuoteFor | src/app/checkout/page.tsx:68-71 | the subtotal is the sum of the lines; tax is 0.08 × subtotal with no rounding; shipping is free only above 100; total = subtotal + tax + shipping |
| ClientPricing.QuoteBounds | src/app/checkout/page.tsx:68-71 | for a cart that is not negative, 1.08 × subtotal ≤ total ≤ 1.08 × subtotal + 9.99 |
| ClientPricing.BoundaryExample | src/app/checkout/page.tsx:70 | a subtotal of exactly 100 still pays 9.99: two 50.00 items total 117.99 |
| ClientPricing.MoreGoodsCanCostLess | src/app/checkout/page.tsx:70-71 | the total is not monotone: goods worth 100.01 cost less in total than goods worth 100.00 |
| CheckoutPage.CountryNeverChecked | src/app/checkout/page.tsx:78-88 | changing the country never changes the verdict of `validateForm` |
| CheckoutPage.InitialFormInvalid | src/app/checkout/page.tsx:38-62 | the prefilled form (name and email from the session, country USA) never validates, because phone and address start empty |
| CheckoutPage.InvalidFormSendsNothing | src/app/checkout/page.tsx:90-93 | with an incomplete form the only effect is the error toast: no request, no storage change, no loading flag |
| CheckoutPage.LoadingAlwaysCleared | src/app/checkout/page.tsx:90-172 | with a valid form, loading is set first and cleared last, and nothing in between touches it |
| CheckoutPage.CartClearedOnlyOnSuccess | src/app/checkout/page.tsx:118-161 | the stored cart is cleared iff the form is valid, the server answered ok and, for a card, Stripe loaded |
| CheckoutPage.CodOrderStoredAsDisplayed | src/app/checkout/page.tsx:136-152 | the cash-on-delivery body is posted, and the orders route stores it as pending with exactly the four displayed amounts |
| CheckoutPage.CheckoutView.constructor | src/app/checkout/page.tsx:38-62 | the page starts with the stored cart, the prefilled form, card selected and not loading |
| CheckoutPage.CheckoutView.PlaceOrder | src/app/checkout/page.tsx:90-172 | appends exactly the effects of `handlePlaceOrder` to the trace; the stored cart survives iff no `ClearStoredCart` effect; loading ends false; cart, form and payment choice are unchanged |
| CheckoutPage.CheckoutView.Attempt | src/app/checkout/page.tsx:95-168 | appends exactly the effects of the `try` block and its `catch` toast; the stored cart is cleared iff a `ClearStoredCart` effect is among them; loading, cart, form and payment choice are unchanged |
| CartPage.WithQuantity | src/app/cart/page.tsx:36-40 | same length and order; lines with the id get the new quantity and all other lines are unchanged |
| CartPage.ApplyKeepsPositive | src/app/cart/page.tsx:30-45 | one `updateQuantity` or `removeItem` call keeps every quantity at 1 or more |
| CartPage.ApplyAllKeepsPositive | src/app/cart/page.tsx:30-45 | any sequence of those calls keeps every quantity at 1 or more |
| CartPage.DecrementFromOneRemoves | src/app/cart/page.tsx:31-34 | lowering a quantity of 1 removes every line with that id |
| CartPage.FreeShippingHint | src/app/cart/page.tsx:160-164 | the hint appears iff the subtotal is below 100, and then shows 100 − subtotal, which is positive |
| CartPage.HintMeansShippingCharged | src/app/cart/page.tsx:160-164 | whenever the hint shows, shipping is charged; shipping is charged without a hint exactly at a subtotal of 100 |
| CartPage.CartView.constructor | src/app/cart/page.tsx:28 | the page starts with the given lines |
| CartPage.CartView.RemoveItem | src/app/cart/page.tsx:43-45 | the lines become the old ones without that id, in their original order |
| CartPage.CartView.UpdateQuantity | src/app/cart/page.tsx:30-41 | a quantity ≤ 0 acts exactly as `removeItem`; otherwise only that id's quantity changes |
| CartPage.CartView.Summary | src/app/cart/page.tsx:47-50 | the cart page's summary is the checkout page's quote for the same lines |
| OrderModel.ItemsPriceNonNegative | src/models/Order.ts:54-56 | items with qty ≥ 1 and price ≥ 0 never sum below 0 |
| OrderModel.HookAmounts | src/models/Order.ts:129-148 | itemsPrice is the sum of price × qty; shipping is 0 iff itemsPrice > 100, else 10; tax and total are in whole cents, within half a cent of 10 % of itemsPrice and of the sum |
| OrderModel.HookAmountsNonNegative | src/models/Order.ts:54-56 | for valid items none of the four amounts is negative |
| OrderModel.HookTotalExactOnCents | src/models/Order.ts:143-145 | when itemsPrice is in whole cents, the total is exactly itemsPrice + shipping + tax |
| OrderModel.HookDisagreesWithPages | src/models/Order.ts:137-145 | the same goods are priced differently: 117.99 on the pages and 120.00 after the hook |
| OrderModel.OrderDocument.constructor | src/models/Order.ts:81-121 | the amounts default to 0, isPaid and isDelivered to false, and status to 'pending' |
| OrderModel.OrderDocument.PreSave | src/models/Order.ts:129-148 | the four amounts become the hook's values for the document's own items, whatever they were; nothing else changes and validity is kept |
| OrdersRoute.ToLines | src/app/api/orders/route.ts:53-59 | one stored line per cart line, in order, mapping id to productId |
| OrdersRoute.LinesRoundTrip | src/app/api/orders/route.ts:53-59 | mapping the stored lines back gives the cart lines: nothing is lost or reordered |
| OrdersRoute.PaymentStatusFor | src/app/api/orders/route.ts:71 | 'pending' iff the method is 'cod', otherwise 'paid' |
| OrdersRoute.PostDecision | src/app/api/orders/route.ts:28-77 | 401 without a user id; then 400 for missing, non-array or empty items; then 400 for a missing shippingInfo or paymentMethod; otherwise a record owned by the session user, with the lines and address mapped, status 'pending', payment status 'pending' for cod and 'paid' otherwise, and the four amounts copied verbatim |
| OrdersRoute.ClientStatusIgnored | src/app/api/orders/route.ts:71-76 | the status and paymentStatus in the body have no effect |
| OrdersRoute.OwnIdsNewestFirst | src/app/api/orders/route.ts:17-18 | exactly the ids of the user's orders, in strictly decreasing order |
| OrdersRoute.History | src/app/api/orders/route.ts:17-19 | at most 50 ids, all the caller's, newest first; any of the caller's orders left out is older than every one returned |
| OrdersRoute.OrderStore.constructor | src/app/api/orders/route.ts:51 | the store starts empty |
| OrdersRoute.OrderStore.Insert | src/app/api/orders/route.ts:51-77 | appends exactly one record, and its id is its position |
| OrdersRoute.OrderStore.Post | src/app/api/orders/route.ts:28-83 | a refusal leaves the store unchanged; acceptance appends exactly the decided record and answers 200 with its id |
| OrdersRoute.OrderStore.Get | src/app/api/orders/route.ts:7-21 | 401 iff no user id; otherwise at most 50 orders, all the caller's, and exactly the records `History` selects, newest first |
| StripeCheckout.ImagesFor | src/app/api/stripe/checkout/route.ts:36 | no image gives []; an image starting with 'http' is kept; any other image is prefixed with the base URL |
| StripeCheckout.AbsoluteImages | src/app/api/stripe/checkout/route.ts:36 | with an absolute base URL, every image sent is absolute |
| StripeCheckout.LineItemsFor | src/app/api/stripe/checkout/route.ts:31-71 | one line per cart item in order, then Shipping iff shipping > 0, then Tax iff tax > 0, each fee line of quantity 1; the count is items + the two conditions |
| StripeCheckout.BuildLineItems | src/app/api/stripe/checkout/route.ts:31-71 | the map followed by the two conditional pushes builds exactly `LineItemsFor` |
| StripeCheckout.ChargedCentsAppend | src/app/api/stripe/checkout/route.ts:31-71 | the charge of a concatenation of lines is the sum of the charges |
| StripeCheckout.ItemLinesChargeSubtotal | src/app/api/stripe/checkout/route.ts:38 | for prices in whole cents, the item lines charge exactly 100 × the page's subtotal |
| StripeCheckout.ChargedMatchesQuote | src/app/api/stripe/checkout/route.ts:31-71 | for a non-negative cart in whole cents, Stripe charges the displayed total to within half a cent |
| StripeCheckout.EncodeItems | src/app/api/stripe/checkout/route.ts:84 | one JSON element per item, in order |
| StripeCheckout.EncodeMetadata | src/app/api/stripe/checkout/route.ts:81-89 | the metadata has exactly the keys userId, shippingInfo, items and the four amounts |
| StripeCheckout.CreateCheckoutSession | src/app/api/stripe/checkout/route.ts:10-102 | 401, then 400 for the items, then 400 for shippingInfo, then 500 when any of the four amounts is missing (its `toString()` throws), each without contacting Stripe; otherwise exactly the built request is sent, and the reply is the new session's id and url, or 500; no order is written |
| StripeWebhook.MetadataRoundTrip | src/app/api/stripe/webhook/route.ts:47-53 | decoding the metadata the checkout route encoded gives back the user id, shipping info, items and the four amounts |
| StripeWebhook.WebhookDecision | src/app/api/stripe/webhook/route.ts:14-90 | a missing signature or a failed verification gives 400; for a verified completed session, a failed retrieve gives 500, missing metadata 400, and otherwise it inserts iff the metadata decodes (500 if not); an insert is a paid card order; other event types are acknowledged iff verified |
| StripeWebhook.InsertedOrderMatchesCheckout | src/app/api/stripe/webhook/route.ts:58-85 | a completed session carrying the checkout route's metadata inserts the order the checkout described, mapped as the cash-on-delivery route maps it, as a paid card order in 'processing' with the payment intent |
| StripeWebhook.HandleWebhook | src/app/api/stripe/webhook/route.ts:10-98 | the store gains the decided record when there is one, and nothing otherwise; the status follows the decision |
| StripeWebhook.RedeliveryDuplicates | src/app/api/stripe/webhook/route.ts:56-85 | delivering the same completed session twice stores two orders for one payment |
| StripeWebhook.DeliverOnce | src/app/api/stripe/webhook/route.ts:56-85 | with a lookup by payment intent, a payment already recorded inserts nothing |
| StripeWebhook.DeliverOnceIdempotent | src/app/api/stripe/webhook/route.ts:56-85 | delivering twice leaves the store as delivering once |
| StripeWebhook.DeliverOnceAtMostOne | src/app/api/stripe/webhook/route.ts:56-85 | with the lookup, no payment is ever recorded twice |
| StripeWebhook.HandleWebhookOnce | src/app/api/stripe/webhook/route.ts:10-98 | the handler with the lookup: the store changes as `DeliverOnce` says, and the status is the same as the handler's without it |
| ProductsPage.WithCategory | src/app/products/page.tsx:125-128 | keeps exactly the products of that category |
| ProductsPage.WithCategoryAppend | src/app/products/page.tsx:125-128 | the filter keeps the original relative order |
| ProductsPage.Visible | src/app/products/page.tsx:125-128 | every product when no category is chosen, otherwise exactly those of the category |
| ProductsPage.BuyNowItem | src/app/products/page.tsx:133-139 | quantity 1, and the first image or '/icon.svg' when there is none |
| ProductsPage.BuyNowSingleLastEntry | src/app/products/page.tsx:133-141 | after Buy Now, exactly one entry has the product id; it is last, with quantity 1; the others keep their relative order |
| ProductsPage.BuyNowAppendsNew | src/app/products/page.tsx:140 | a product not yet in the cart is simply appended |
| ProductsPage.BuyNowIdempotent | src/app/products/page.tsx:130-145 | Buy Now twice leaves the same stored cart as once |
| ProductsPage.ProductsView.constructor | src/app/products/page.tsx:36-45 | the saved wishlist array becomes a set with the same elements and no repeats |
| ProductsPage.ProductsView.Shown | src/app/products/page.tsx:125-128 | exactly the loaded products of the selected category, in order (all of them when none is selected) |
| ProductsPage.ProductsView.ToggleWishlist | src/app/products/page.tsx:56-68 | the id's membership flips, no other id's membership changes, and there are still no repeats |
| ProductsPage.ProductsView.BuyNow | src/app/products/page.tsx:130-145 | the stored cart becomes the Buy Now cart (a non-array becomes the single new line; text that does not parse is left alone), and the page navigates to /cart |
| JsSet.Add | src/hooks/useWishlist.ts:37-41 | the elements become old ∪ {id}; an id already present changes nothing |
| JsSet.Delete | src/hooks/useWishlist.ts:75-79 | the elements become old \ {id}; an absent id changes nothing; the order is kept |
| JsSet.Toggle | src/hooks/useWishlist.ts:108-114 | only the id's membership flips |
| JsSet.ToggleTwice | src/app/products/page.tsx:56-68 | toggling twice restores the set of elements |
| JsSet.ToggleTwiceReorders | src/app/products/page.tsx:56-68 | but not their order: the id moves to the end |
| JsSet.FromArray | src/hooks/useWishlist.ts:9-22 | `new Set(array)` has the array's elements, without repeats |
| JsSet.FromArrayOfDistinct | src/hooks/useWishlist.ts:122-124 | an array without repeats comes back unchanged |
| WishlistHook.Wishlist.constructor | src/hooks/useWishlist.ts:9-22 | the saved array, if any, becomes the set (repeats dropped); storage keeps what it held; nothing is sent |
| WishlistHook.Wishlist.Persist | src/hooks/useWishlist.ts:41-51 | on a successful write, storage, the sync body and the event all carry the new array; on a failed write none of them happens |
| WishlistHook.Wishlist.AddToWishlist | src/hooks/useWishlist.ts:36-71 | the state updates to old ∪ {id} before the write, then persists as `Persist` says; no repeats |
| WishlistHook.Wishlist.RemoveFromWishlist | src/hooks/useWishlist.ts:74-105 | the state updates to old \ {id} before the write, then persists; no repeats |
| WishlistHook.Wishlist.ToggleWishlist | src/hooks/useWishlist.ts:108-114 | removes when present and adds when absent; only that id's membership flips |
| WishlistHook.Wishlist.IsInWishlist | src/hooks/useWishlist.ts:117-119 | exactly set membership |
| WishlistHook.Wishlist.GetWishlistArray | src/hooks/useWishlist.ts:122-124 | the set's elements, each once, in insertion order |
| ProductsRoute.CollapseFrom | src/app/api/products/route.ts:98 | the result uses only a-z, 0-9 and '-', and never has two dashes in a row |
| ProductsRoute.StripEdgeDashes | src/app/api/products/route.ts:99 | no dash at either end, and the alphabet is kept |
| ProductsRoute.Slug | src/app/api/products/route.ts:96-99 | only a-z, 0-9 and '-', never '--', and no dash at either end |
| ProductsRoute.CollapseAppend | src/app/api/products/route.ts:98 | the run replacement of x + y is that of x followed by that of y, started from whether x ended inside a run |
| ProductsRoute.SlugOfWord | src/app/api/products/route.ts:96-99 | a word whose lower-cased letters are all a-z or 0-9 slugs to its lower-cased self |
| ProductsRoute.SlugJoinsWords | src/app/api/products/route.ts:96-99 | two words joined by any non-empty run of other characters slug to their two slugs joined by one dash |
| ProductsRoute.CollapseClean | src/app/api/products/route.ts:98 | the run replacement leaves a clean slug unchanged |
| ProductsRoute.SlugIdempotent | src/app/api/products/route.ts:96-99 | slug(slug(s)) = slug(s) |
| ProductsRoute.SlugKeepsAlnum | src/app/api/products/route.ts:96-99 | the letters and digits of the slug are exactly those of the lower-cased name, in order |
| ProductsRoute.SlugSurvivesSetters | src/models/Product.ts:28-34 | the schema's lowercase and trim setters leave a slug unchanged |
| ProductsRoute.AppendKeepsCatalogValid | src/models/Product.ts:28-34 | adding a valid product whose slug is new keeps every product valid and every slug unique |
| ProductsRoute.ProductStore.constructor | src/app/api/products/route.ts:71 | the catalog starts empty |
| ProductsRoute.ProductStore.Post | src/app/api/products/route.ts:71-119 | 401 unless admin; 400 for a missing name, price or category (a price of 0 counts as missing); 201 iff those pass and the built product is valid with a new slug, in which case exactly that product is appended; otherwise nothing changes; the catalog invariant is kept |
| ProductsRoute.StoredSlugIsClean | src/app/api/products/route.ts:96-106 | the stored slug is the computed slug, and it is clean |
| ProductsRoute.BuildQuery | src/app/api/products/route.ts:22-39 | a product matches the built query iff its category is the one asked for and minPrice ≤ price ≤ maxPrice, each test only when its parameter is given |
| ProductsRoute.Pages | src/app/api/products/route.ts:58 | for a positive limit, the pages hold the total and one page fewer would not; 0 for no matches; null for limit 0 |
| ProductsRoute.CeilDivBounds | src/app/api/products/route.ts:58 | ceil(total / limit) × limit ≥ total, and one page fewer < total |
| ProductsRoute.EveryMatchOnOnePage | src/app/api/products/route.ts:45-58 | match i lies on page i / limit + 1, between that page's skip and skip + limit, and that page exists |
| ProductsRoute.PageSlice | src/app/api/products/route.ts:42-46 | the page is the matches from skip on, in order: all that remain when limit is 0, else as many as \|limit\| allows; a negative skip is an error |
| ProductsRoute.Filter | src/app/api/products/route.ts:42 | exactly the products that match the query |
| ProductsRoute.FilterSingle | src/app/api/products/route.ts:42 | one product is kept iff it matches the query |
| ProductsRoute.FilterAppend | src/app/api/products/route.ts:42 | filtering keeps the database's order: the matches of a + b are those of a followed by those of b |
| ProductsRoute.List | src/app/api/products/route.ts:9-68 | the page is exactly `PageSlice` of the matches at the requested page and limit; total counts the matches; pages is computed from them; it fails iff skip < 0 |
| ProductsRoute.DefaultListing | src/app/api/products/route.ts:14-15 | with no page or limit, page 1, limit 10 and exactly the first 10 matches (all of them if fewer) |
| ProductModel.NewProduct | src/models/Product.ts:23-83 | name and description are the trimmed inputs and the slug the trimmed, lower-cased input; the brand is trimmed when given; rating, numReviews, countInStock and discount are as given, else 0, and isFeatured as given, else false; price, category and images are copied |
| ProductModel.DefaultsAreValid | src/models/Product.ts:58-83 | the defaults satisfy the rating, stock and discount bounds |
| ProductModel.PriceAfterDiscount | src/models/Product.ts:97-102 | price × (100 − discount) / 100 when the discount is positive, and the price otherwise |
| ProductModel.DiscountWithinPrice | src/models/Product.ts:40-44 | within the schema's bounds, 0 ≤ discounted price ≤ price |
| ProductModel.FullDiscountIsFree | src/models/Product.ts:78-83 | a 100 % discount gives 0 |
| ProductModel.DiscountMonotone | src/models/Product.ts:97-102 | a larger discount never gives a higher price |
| UserModel.Hash | src/models/User.ts:102-103 | a stand-in hash carries bcrypt's '$2b$' prefix |
| UserModel.MatchesHash | src/models/User.ts:111-114 | a candidate matches the hash of a password iff it is that password |
| UserModel.NoMatchAfterDoubleHash | src/models/User.ts:102-103 | no password matches the hash of its own hash |
| UserModel.EmailRegexIff | src/models/User.ts:53 | the email pattern accepts exactly the strings with no whitespace, one '@' after a non-empty local part, and a '.' in the domain that is neither its first nor its last character |
| UserModel.EmojiPasswordLength | src/models/User.ts:57 | `minlength` counts UTF-16 code units: four characters above U+FFFF pass it and three do not |
| UserModel.DefaultAddress | src/models/User.ts:63-71 | the seven address fields, all '' |
| UserModel.NewUser | src/models/User.ts:31-88 | the name is the trimmed input and the email the lower-cased input; image, emailVerified, provider and role are as given, else '', false, 'local' and 'user'; the address is the empty address and the wishlist empty; id and password are copied |
| UserModel.ValidEmailIsNormal | src/models/User.ts:48-54 | a valid email has no whitespace at either end |
| UserModel.NewUserDefaults | src/models/User.ts:75-88 | a user created without those fields is an unverified local user, within both enums |
| UserModel.SavedPassword | src/models/User.ts:98-108 | the password is rehashed iff it was modified and is non-empty; otherwise it is left as it was |
| UserModel.UserDocument.constructor | src/models/User.ts:31-88 | a new document is `NewUser`, and its password counts as modified iff one was given |
| UserModel.UserDocument.PreSave | src/models/User.ts:98-108 | only the password changes, to `SavedPassword` |
| UserModel.UserDocument.ComparePassword | src/models/User.ts:111-114 | false when no password is stored; otherwise bcrypt's answer |
| UserModel.PasswordMatches | src/models/User.ts:111-114 | false when the stored password is absent or empty; otherwise true exactly when bcrypt matches the candidate against it |
| UserModel.SavedOnceMatches | src/models/User.ts:98-114 | a password hashed once on save matches itself and nothing else |
| UserModel.SavedHashNeverMatches | src/models/User.ts:98-114 | a value that is already a hash is hashed again on save, and then the password no longer matches |
| UserModel.UserStore.constructor | src/models/User.ts:117 | the collection starts empty |
| UserModel.FindByEmail | src/models/User.ts:48-54 | a lookup finds the record stored under the lower-cased email, and only that one |
| RegisterRoute.StoredAsWritten | src/app/api/auth/register/route.ts:40-64 | the stored password is the hash of the hash; the rest is `NewUser` of the route's fields |
| RegisterRoute.StoredHashOnce | src/models/User.ts:98-103 | handing the plain password to the schema stores its hash once |
| RegisterRoute.Register | src/app/api/auth/register/route.ts:10-76 | 400 for a missing field, then 400 for a password under 8 UTF-16 code units, then 409 for a taken email; 201 iff those pass and the document validates, inserting exactly one local, verified user with role 'user' under its email; otherwise no change; store validity is kept |
| RegisterRoute.RegisterHashOnce | src/app/api/auth/register/route.ts:10-76 | the same cascade, with the password hashed once |
| RegisterRoute.RegisterKeepsStoreValid | src/app/api/auth/register/route.ts:55-64 | the insertion keeps every user under its own email and valid |
| RegisterRoute.RegisteredEmailFound | src/lib/authOptions.ts:72-76 | the email used at registration, typed again at sign-in, finds the new record |
| RegisterRoute.RegisteredUserCannotSignIn | src/app/api/auth/register/route.ts:40-64 | as written, a newly registered user is refused with 'Invalid email or password' for the very password they chose |
| RegisterRoute.RegisteredUserSignsIn | src/lib/authOptions.ts:65-105 | hashing once, the new user signs in as role 'user' with the lower-cased email |
| AuthOptions.RoleOr | src/lib/authOptions.ts:104 | the role, or 'user' when it is absent or empty: never empty, and a given role is kept |
| AuthOptions.Authorize | src/lib/authOptions.ts:65-110 | missing fields are refused first; an unknown email is refused; success iff a local user is found by lower(trim(email)) whose stored hash matches; success returns id, email, name and the role (default 'user') |
| AuthOptions.UnknownAndWrongPasswordAlike | src/lib/authOptions.ts:78-97 | an unknown email and a wrong password give the same error |
| AuthOptions.OtherProviderRefused | src/lib/authOptions.ts:84-87 | a user of another provider gets 'Please sign in with' that provider, whatever the password |
| AuthOptions.StoredEmailFindsItself | src/lib/authOptions.ts:72-76 | a stored valid email typed back as stored reaches its own record |
| AuthOptions.Token.constructor | src/lib/authOptions.ts:151 | a token holds the given fields |
| AuthOptions.JwtCallback | src/lib/authOptions.ts:151-172 | on first sign-in, a new token spreads the old one with id, role (default 'user') and the access token; with only a user, id and role are written into the token; with no user, the token is unchanged |
| AuthOptions.Session.constructor | src/lib/authOptions.ts:174 | a session starts without id, role or access token |
| AuthOptions.SessionCallback | src/lib/authOptions.ts:174-185 | with a session user, id, role (default 'user') and access token are copied from the token; otherwise nothing changes |
| AuthOptions.SignInSession | src/lib/authOptions.ts:151-185 | after both callbacks, the session carries the user's id, a non-empty role within the enum when the stored one is, and the access token |
| AuthOptions.GoogleUser | src/lib/authOptions.ts:203-210 | a new Google user: provider 'google', verified, role 'user', no password, lower-cased email |
| AuthOptions.Linked | src/lib/authOptions.ts:214-221 | an existing non-Google user becomes Google and verified; a Google user is untouched |
| AuthOptions.SignInCallback | src/lib/authOptions.ts:187-231 | other providers pass with no change; Google without an email is refused; an unknown email creates one Google user iff it validates; a known one is linked iff already Google or the linked record validates; the store stays valid |
| AuthOptions.CreateGoogleUser | src/lib/authOptions.ts:201-213 | for an email not yet stored, one new Google user is saved iff it validates, and the store stays valid |
| AuthOptions.LinkToGoogle | src/lib/authOptions.ts:214-222 | a stored account is allowed iff it is already Google or the linked record validates, and then it is replaced by the linked record; the store stays valid |
| AuthOptions.LinkedStaysValid | src/lib/authOptions.ts:214-221 | linking keeps a valid user valid and keeps its email |
| AuthOptions.LinkingEndsPasswordSignIn | src/lib/authOptions.ts:84-87 | once linked to Google, an account is refused password sign-in with 'Please sign in with google' |
| UsersMeRoute.Or | src/app/api/users/me/route.ts:61-64 | JavaScript's `or` on two optional strings: a when it is non-empty, b otherwise |
| UsersMeRoute.GetProfile | src/app/api/users/me/route.ts:8-38 | 401 without a user id, then 404 for an unknown user; otherwise the profile of that user: its id, image, address and wishlist, with the derived first and last names |
| UsersMeRoute.NameSplitRoundTrip | src/app/api/users/me/route.ts:26-27 | with no stored first or last name and a space in the name, first + ' ' + last gives back the name |
| UsersMeRoute.NameWithoutSpace | src/app/api/users/me/route.ts:26-27 | a name with no space is all first name, and the last name is '' |
| UsersMeRoute.PatchedName | src/app/api/users/me/route.ts:64 | the new name is trimmed |
| UsersMeRoute.FieldsUpdate | src/app/api/users/me/route.ts:60-67 | a given non-empty first or last name is stored trimmed; empty or absent first name, last name and email fall back to the stored ones; the name is rebuilt from those; image falls back only when absent; the address merges; id, provider, role, emailVerified, password and wishlist are kept |
| UsersMeRoute.Merged | src/app/api/users/me/route.ts:60-85 | the object literal's fields, with the password hashed only when a change was asked for and the wishlist replaced only by an array |
| UsersMeRoute.MergedAddress | src/app/api/users/me/route.ts:66 | the body's keys override, absent keys are kept, and no body address keeps the stored address |
| UsersMeRoute.Patch | src/app/api/users/me/route.ts:40-110 | 401, then 404; with both password fields, 400 for a wrong current password before 400 for a new one under 6 UTF-16 code units; 200 iff those pass and the merged user validates, returning exactly the merged user |
| UsersMeRoute.ChangedPasswordMatches | src/app/api/users/me/route.ts:70-81 | after a change the new password matches, and a different old one no longer does |
| UsersMeRoute.WishlistSyncRenamesUser | src/app/api/users/me/route.ts:64 | as written, the wishlist-only body renames a user with no first or last name to "undefined undefined", and the update validates |
| UsersMeRoute.CorrectedName | src/app/api/users/me/route.ts:26-27 | the name rebuilt from the names the profile shows is trimmed |
| UsersMeRoute.CorrectedPatchKeepsName | src/app/api/users/me/route.ts:26-27 | rebuilt that way, a PATCH without name fields keeps a trimmed stored name |
| UsersMeRoute.CorrectedAgreesWithStoredParts | src/app/api/users/me/route.ts:64 | when both parts are stored, the rebuilt name is the route's |
| JsString.Trim | src/app/api/users/me/route.ts:64 | the result is the slice of the input after its leading whitespace, everything cut off on either side is whitespace, and the result has none at either end; a trimmed string is left alone |
| JsString.TrimKeepsInside | src/app/api/users/me/route.ts:64 | only the surrounding whitespace is removed: `" a ".trim()` is `"a"` |
| JsString.LengthAppend | src/app/api/auth/register/route.ts:19 | `length` of a concatenation is the sum of the lengths |
| JsString.LowerIdempotent | src/lib/authOptions.ts:72 | lower-casing twice is lower-casing once |
| JsString.LowerAppend | src/app/api/products/route.ts:97 | lower-casing works character by character: it distributes over concatenation |
| JsString.JoinSplit | src/app/api/users/me/route.ts:26-27 | splitting at a character and joining with it again gives back the string |
| JsNumber.MathRound | src/app/api/stripe/checkout/route.ts:38 | the nearest integer, a half going up |
| JsNumber.ToFixed2 | src/models/Order.ts:140 | in whole cents, within half a cent, and not negative for a non-negative input |
| JsNumber.ToFixed2Idempotent | src/models/Order.ts:143-145 | rounding to cents twice is rounding once |
| Shop.SignedInId | src/app/api/orders/route.ts:32-34 | a user id iff the session has a non-empty one |
| Shop.WithoutIdMembers | src/app/cart/page.tsx:44 | the filter keeps exactly the lines with another id |
| Shop.WithoutIdAppend | src/app/cart/page.tsx:44 | the filter keeps the original order |

## Left out

- MongoDB itself is left out: `connectToDB`, driver failures and the 500 answers they cause.
  `OrdersRoute.OrderStore.Post` has no database-failure path. Neither has the Stripe
  webhook's insert.
- Whether Mongoose accepts the documents the order routes write is not modelled. The routes
  write `userId`, `items`, `paymentStatus`, `paymentIntentId` and `'card'`; the Order schema
  declares `user` and `orderItems` and has no `'card'`. The schema and the routes are each
  modelled as written. So `OrderModel.OrderDocument.PreSave` is not applied to the routes'
  records.
- The `$text` search (`search`) is only carried into the query. Its matching is left out.
- The `sort` parameter of the product listing is left out: `List` takes the matches already
  in the database's order. Text that `parseInt` cannot read (`NaN`) is left out too.
- Stripe is left out: the HMAC signature check, the API calls and what Stripe does with a
  session. Each is a parameter.
- bcrypt's salt and cost are left out. `Hash` is a deterministic stand-in.
- `UserModel.MatchesHash`: holds for the injective stand-in `Hash`. bcryptjs hashes only the
  first 72 UTF-8 bytes of a password, so two passwords that share those bytes match each
  other's hash; the real property holds only for passwords of at most 72 bytes.
- `UserModel.SavedOnceMatches`: "matches nothing else" fails for real bcrypt when the saved
  password is longer than 72 UTF-8 bytes; any candidate with the same first 72 bytes matches.
- `UsersMeRoute.ChangedPasswordMatches`: "a different old password no longer matches" fails
  for real bcrypt when the old and new passwords agree on their first 72 UTF-8 bytes.
- NextAuth's own flow is left out: cookies, the OAuth exchange, the adapter and the pages.
- `StripeWebhook.DecodeMetadata` is stricter than the route. It answers `None`, and so 500,
  for any missing or ill-typed field. The route throws only when `JSON.parse` of
  `shippingInfo` or `items` fails or `items.map` fails; a missing `userId` becomes
  `undefined` and a missing or non-numeric amount becomes `NaN`, and the route calls
  `Order.create` with them. The model answers 500 where the route would attempt that insert.
  The `toString` and `parseFloat` text round trip is taken as exact.
- Toast wording beyond the effect trace, router details and `CustomEvent` delivery are left
  out. The cart page's `toFixed(2)` display of the hint is left out (the model gives the
  exact gap).
- `handleInputChange` and the save effect of the products page are left out. Both only copy
  values into state or storage.
- `StripeCheckout.CreateCheckoutSession` does not check the individual shipping fields, and
  neither does the route.
- `UsersMeRoute.GetProfile` and `UsersMeRoute.Patch` model `src/app/api/users/me/route.ts`
  with the stray comma at line 101 removed. As written, that comma stops the whole file from
  parsing, so neither GET nor PATCH runs. With it removed, the PATCH returns the updated user.
- `UsersMeRoute.Patch` works on the record `findById` returned and does not write a store.
  A duplicate email (the unique index error, then 500) is not modelled.
- `UsersMeRoute.Patch` accepts new passwords of 6 or 7 characters. The schema's
  `minlength: 8` only ever sees the hash, as in the source.
- `RegisterRoute.Register` leaves out the "verify the hash" check at
  `src/app/api/auth/register/route.ts:48-52`. It can never fail (`UserModel.MatchesHash`).
- Mongoose's strict mode is left out. It would drop address keys outside the schema in
  `UsersMeRoute.MergedAddress`.
- `AuthOptions.SignInCallback` treats Google's `image: null` like an absent image.
- `toLowerCase` is modelled on ASCII letters only (`JsString.Lower`). JavaScript also maps
  other letters ('Ä' to 'ä', 'İ' to "i̇", the Kelvin sign to 'k'). This affects every member
  that lower-cases:
- `ProductsRoute.Slug`: 'İ' and the Kelvin sign are dropped by the model; the route
  lower-cases them to 'i' (plus a combining dot, which it drops) and 'k' and keeps those.
- `UserModel.NewUser`: the email setter keeps non-ASCII capitals as they are.
- `UserModel.FindByEmail`: "ÄNN@x.io" and "änn@x.io" are different keys in the model and the
  same email in the source.
- `RegisterRoute.Register`: for that pair the source answers 409 on the second registration;
  the model answers 201 twice.
- `AuthOptions.Authorize`: an email typed with non-ASCII capitals finds no user in the model
  where the source would find one.
- `AuthOptions.GoogleUser` and `AuthOptions.CreateGoogleUser`: a Google email with non-ASCII
  capitals is stored with them.
- `AuthOptions.SignInCallback`: it looks the Google email up by the same key, so for
  "ÄNN@x.io" signing in with Google when "änn@x.io" is registered, the model creates a second
  user where the source links the existing one.
- `UsersMeRoute.FieldsUpdate` and `UsersMeRoute.Patch`: the email setter keeps non-ASCII
  capitals of a new email.
- `ProductModel.NewProduct`: the slug's lowercase setter keeps non-ASCII capitals.
- `ProductModel.Valid` covers the validators of the fields the routes set. `numReviews` and
  `brand` have no validator, and neither is modelled.

## Findings

| source | as written | input that shows it | evidently intended | confidence | as-written member | corrected member |
|---|---|---|---|---|---|---|
| src/app/api/auth/register/route.ts:40-64 | the route hashes the password; the schema's `pre('save')` hook (src/models/User.ts:98-103) hashes it again, because a new document counts `password` as modified | any valid registration, e.g. name "Ann Lee", email "ann@example.com", password "password1": `authorize` with the same credentials answers "Invalid email or password" | the password is hashed once, so the new user can sign in | high (not executed) | RegisterRoute.RegisteredUserCannotSignIn | RegisterRoute.RegisteredUserSignsIn |
| src/app/api/stripe/webhook/route.ts:56-85 | every verified `checkout.session.completed` delivery inserts an order; nothing looks up the payment intent first | the same completed session delivered twice (Stripe retries deliveries): two paid orders for one payment | a redelivery is acknowledged and inserts nothing | medium (not executed) | StripeWebhook.RedeliveryDuplicates | StripeWebhook.DeliverOnceIdempotent |
| src/app/api/users/me/route.ts:64 | the name is rebuilt from the body's name parts or else the stored ones, and the stored ones are `undefined` for users who never set the parts | a user registered as "Ann Lee", then the wishlist-only PATCH body `useWishlist` sends: the name becomes "undefined undefined" (once the stray comma at line 101, which keeps the route from parsing as shipped, is fixed) | a PATCH that does not touch the name parts keeps the name | high (not executed) | UsersMeRoute.WishlistSyncRenamesUser | UsersMeRoute.CorrectedPatchKeepsName |
