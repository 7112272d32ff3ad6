# curated-commerce, modelled in Dafny

This project models the storefront logic of curated-commerce, a Next.js shop that keeps its
catalogue and its orders in a Cosmic CMS bucket and takes payment through Stripe. It covers:

- The shopping cart. The reducer in `lib/cart-utils.ts` (add, remove, update quantity,
  clear, totals, the persisted slot) and the provider around it in
  `components/CartProvider.tsx`, a state machine that does nothing before mount.
- The second cart in `lib/cart-context.tsx`. It is keyed by `id` and has its own
  load-then-save gate and "open the drawer on add" flag.
- The API routes. Checkout (`app/api/checkout/route.ts`) builds a payment session
  request from the cart. The webhook (`app/api/webhook/route.ts`) runs a chain of guards
  and then writes one order. The order lookup (`app/api/orders/route.ts`) finds orders by
  email.
- The CMS readers and the order writer in `lib/cosmic.ts`, over an in-memory bucket of
  records.
- The contact form's validation chain (`app/contact/actions.ts`).
- The about page's markdown-like line classifier with its `**bold**` splitter
  (`app/about/page.tsx`).
- The blog card's tag parsing (`app/blog/page.tsx`).
- The "available" filter, the featured selection and the visible sections of the home
  and product listing pages (`app/page.tsx`, `app/products/page.tsx`).

There is one module per source file: `CartUtils`, `CartProvider`, `CartContext`,
`CheckoutRoute`, `WebhookRoute`, `OrdersRoute`, `Cosmic`, `ContactActions`, `AboutPage`,
`BlogPage`, `HomePage` and `ProductsPage`. Two helper modules sit beside them:

- `Wrappers` holds `Option`, `Result`, JavaScript truthiness of an optional string, and
  the thrown-error value.
- `Strings` holds the JavaScript string routines the pages use, each with its
  properties: `trim`, `split`/`join`, `Number.prototype.toString(radix)`, `substring`
  and ASCII upper-casing.

The modelling choices:

- **State.** State that the source changes in place is a class:
  - `CartUtils.CartStore` is the browser's storage slot;
  - `CartProvider.CartProvider` and `CartContext.CartContextProvider` are the React
    state cells;
  - `Cosmic.Bucket` is the CMS bucket, whose `CreateOrder` appends.
- **Pure code.** Everything else is functions over datatypes.
- **Numbers.** Prices are `real` and quantities are `int`. `Math.round(x)` is
  `floor(x + 0.5)`.
- **Parsing.** `JSON.parse` answers an `Option`. A stored blob is either the encoding of a
  value or malformed text.
- **Outside world as parameters.** These become explicit parameters:
  - a CMS transport fault;
  - the outcome of Stripe's signature check (`constructEvent`);
  - the session Stripe creates;
  - what the email provider does with a message;
  - `Date.now()`, as milliseconds;
  - the text of `Math.random().toString(36)`.

Nothing prevents a second order for the same checkout session. Every verified
`checkout.session.completed` delivery inserts a new order, so a redelivered event records
a duplicate (`Cosmic.SecondOrderForSession`, `WebhookRoute.DeliveredTwice`).

## Model

| member | source | states |
|---|---|---|
| CartUtils.CalculateTotals | lib/cart-utils.ts:27-31 | the result keeps the items as given, and its totals are the sum of the quantities and the sum of price × quantity |
| CartUtils.FindIndex | lib/cart-utils.ts:34 | `findIndex`: -1 exactly when no line has the product id; otherwise the index of a line with that id, and no earlier line has it |
| CartUtils.CartWithItem | lib/cart-utils.ts:33-46 | the added-to cart has consistent totals and contains a line for the added product |
| CartUtils.AddMergesExisting | lib/cart-utils.ts:34-41 | an id already present changes only the first matching line: its quantity grows by the incoming quantity, its name, slug, price and image stay, and the length and every other line are unchanged |
| CartUtils.AddAppendsNew | lib/cart-utils.ts:42-44 | a new product id is appended after the existing lines, which keep their order |
| CartUtils.AddItemTotals | lib/cart-utils.ts:33-46 | after an add, totalItems grows by the incoming quantity, and totalPrice grows by that quantity times the unit price of the line that received it (the existing line's price when merged) |
| CartUtils.AddPreservesWellFormed | lib/cart-utils.ts:33-44 | unique product ids and quantities of at least 1 survive an add of at least one unit |
| CartUtils.ItemsWithoutMembers | lib/cart-utils.ts:52 | the filter keeps exactly the lines of other products |
| CartUtils.WithoutAppend | lib/cart-utils.ts:52 | for any cart, unique ids or not, the filter keeps the remaining lines in order: filtering a concatenation filters each part |
| CartUtils.CartWithout | lib/cart-utils.ts:51-53 | the cart after a remove has consistent totals and no line for the removed product |
| CartUtils.RemoveUnique | lib/cart-utils.ts:51-53 | in a cart with unique ids, removing drops exactly the one line found by `findIndex` and keeps the lines before and after it in order |
| CartUtils.RemoveAbsent | lib/cart-utils.ts:51-53 | removing an absent product leaves the items unchanged |
| CartUtils.RemovePreservesWellFormed | lib/cart-utils.ts:51-53 | unique ids and positive quantities survive a remove |
| CartUtils.RemoveItemTotals | lib/cart-utils.ts:51-53 | after a remove, the totals drop by the removed line's quantity and line total, or stay when the product was absent |
| CartUtils.CartWithQuantity | lib/cart-utils.ts:58-66 | the cart after an update has totals consistent with its items |
| CartUtils.UpdateQuantityCases | lib/cart-utils.ts:58-66 | a quantity ≤ 0 is exactly remove and keeps precisely the other products' lines; a positive quantity sets (does not add to) the quantity of every matching line and keeps the length and all other lines |
| CartUtils.UpdateIdempotent | lib/cart-utils.ts:58-66 | updating to the same quantity twice gives the same cart as updating once |
| CartUtils.DecrementLastUnitRemoves | lib/cart-utils.ts:58-61 | decrementing a line that holds one unit removes exactly that line and lowers totalItems by one |
| CartUtils.UpdatePreservesWellFormed | lib/cart-utils.ts:58-66 | unique ids and positive quantities survive an update with any quantity |
| CartUtils.SumsAppend | lib/cart-utils.ts:28-29 | both reductions distribute over concatenation of the line lists |
| CartUtils.CartStore.constructor | lib/cart-utils.ts:3 | the store starts with the given window flag and slot contents |
| CartUtils.CartStore.GetCartFromStorage | lib/cart-utils.ts:5-20 | the empty cart when there is no window, no stored value, an empty string or text that fails to parse; otherwise the parsed cart exactly as stored, without recomputing totals |
| CartUtils.CartStore.SaveCartToStorage | lib/cart-utils.ts:22-25 | with a window the slot holds the encoded cart; without one nothing changes |
| CartUtils.CartStore.AddItemToCart | lib/cart-utils.ts:33-49 | returns the added-to cart and writes that same cart to the slot |
| CartUtils.CartStore.RemoveItemFromCart | lib/cart-utils.ts:51-56 | returns the cart without the product and writes it to the slot |
| CartUtils.CartStore.UpdateItemQuantity | lib/cart-utils.ts:58-69 | returns the updated cart (remove for a quantity ≤ 0) and writes it to the slot |
| CartUtils.CartStore.ClearCart | lib/cart-utils.ts:71-75 | returns `{items: [], totalItems: 0, totalPrice: 0}` and writes it to the slot |
| CartUtils.SaveThenGet | lib/cart-utils.ts:5-25 | with a window, reading after a save gives back the saved cart |
| CartProvider.UseCart | components/CartProvider.tsx:86-92 | the context exactly when a provider is present; otherwise the error "useCart must be used within a CartProvider" |
| CartProvider.CartProvider.constructor | components/CartProvider.tsx:26-28 | the first render holds the empty cart, a closed drawer and `mounted` false |
| CartProvider.CartProvider.Value | components/CartProvider.tsx:51-83 | before mount the exposed cart is empty and the drawer closed; after mount the state cells are exposed |
| CartProvider.CartProvider.Mount | components/CartProvider.tsx:30-33 | the cart becomes what storage holds and `mounted` becomes true; the drawer flag is untouched |
| CartProvider.CartProvider.AddItem | components/CartProvider.tsx:35-37 | after mount, the cart becomes the reducer's add of the previous cart, and that same cart is saved; before mount nothing changes; the drawer flag never changes |
| CartProvider.CartProvider.RemoveItem | components/CartProvider.tsx:39-41 | after mount, the reducer's remove of the previous cart, saved; before mount nothing changes |
| CartProvider.CartProvider.UpdateQuantity | components/CartProvider.tsx:43-45 | after mount, the reducer's update of the previous cart, saved; before mount nothing changes |
| CartProvider.CartProvider.ClearCart | components/CartProvider.tsx:47-49 | after mount the cart becomes empty and the empty cart is saved; before mount nothing changes |
| CartProvider.CartProvider.SetIsCartOpen | components/CartProvider.tsx:27 | after mount the drawer flag takes the given value; before mount it is a no-op; the cart never changes |
| CartProvider.MountThenAdd | components/CartProvider.tsx:30-37 | the value exposed before mount is the empty closed cart; after mounting and adding, it is the add applied to the stored cart, and the drawer stays closed |
| CartContext.LoadCartFromStorage | lib/cart-context.tsx:22-36 | `[]` when there is no window, no key, an empty string, a parse failure or a non-array value; otherwise the parsed array |
| CartContext.IncreaseMatching | lib/cart-context.tsx:70-74 | same length; every line with the id has its quantity raised, and the others are unchanged |
| CartContext.AddExisting | lib/cart-context.tsx:66-75 | an id already present raises the quantity of every line with that id, not only the first, and changes no other field or line |
| CartContext.AddNew | lib/cart-context.tsx:76 | a new id is appended at the end |
| CartContext.AddTotalItems | lib/cart-context.tsx:66-99 | with unique ids, an add raises totalItems by exactly the incoming quantity |
| CartContext.AddKeepsUnique | lib/cart-context.tsx:66-79 | an add keeps ids unique |
| CartContext.IncreaseTotalItems | lib/cart-context.tsx:70-99 | with unique ids, raising the matching line raises the total by the extra amount when the id is present, and by nothing otherwise |
| CartContext.TotalsAppend | lib/cart-context.tsx:99-100 | both derived totals distribute over concatenation |
| CartContext.ItemsWithoutMembers | lib/cart-context.tsx:81-83 | remove keeps exactly the lines whose id differs |
| CartContext.RemoveAbsent | lib/cart-context.tsx:81-83 | removing an absent id changes nothing |
| CartContext.WithoutAppend | lib/cart-context.tsx:81-83 | remove keeps the other lines in their order: filtering a concatenation, including any split of the list, filters each part |
| CartContext.SetMatching | lib/cart-context.tsx:90-92 | same length; every line with the id gets the quantity, and the others are unchanged |
| CartContext.UpdateQuantityCases | lib/cart-context.tsx:85-93 | a quantity ≤ 0 removes the id; a positive quantity overwrites the quantity on the matching lines and keeps the length and the other lines |
| CartContext.UseCart | lib/cart-context.tsx:121-127 | the context when a provider is present; otherwise the error "useCart must be used within a CartProvider" |
| CartContext.CartContextProvider.constructor | lib/cart-context.tsx:48-50 | the first render has no lines, a closed drawer and nothing loaded |
| CartContext.CartContextProvider.Value | lib/cart-context.tsx:99-114 | the exposed lines and drawer flag are the state cells; totalItems and totalPrice are recomputed from the lines |
| CartContext.CartContextProvider.SaveEffect | lib/cart-context.tsx:38-64 | the lines are written to storage only when loaded and a window exists; no state cell changes |
| CartContext.CartContextProvider.Mount | lib/cart-context.tsx:53-64 | the lines become what storage held, the provider is loaded, and the loaded lines are written back |
| CartContext.CartContextProvider.AddItem | lib/cart-context.tsx:66-79 | the lines become the added-to list, the drawer opens, and the lines are saved only after loading |
| CartContext.CartContextProvider.RemoveItem | lib/cart-context.tsx:81-83 | the lines lose the id, the drawer is untouched, and the lines are saved only after loading |
| CartContext.CartContextProvider.UpdateQuantity | lib/cart-context.tsx:85-93 | the lines are updated (removed for a quantity ≤ 0) and saved only after loading |
| CartContext.CartContextProvider.ClearCart | lib/cart-context.tsx:95-100 | no lines, both totals 0, the empty list saved only after loading |
| CartContext.CartContextProvider.SetIsCartOpen | lib/cart-context.tsx:49-113 | only the drawer flag changes |
| CartContext.SaveThenLoad | lib/cart-context.tsx:22-45 | loading what was saved gives the same lines back |
| CartContext.AddBeforeLoad | lib/cart-context.tsx:53-79 | an add before the load effect neither reaches storage nor survives the load; after mounting over a corrupt slot there are no lines, the drawer the add opened stays open, and `[]` is written back |
| CheckoutRoute.RoundHalfUp | app/api/checkout/route.ts:31 | `Math.round`: the integer r with r ≤ x + 0.5 < r + 1 |
| CheckoutRoute.RoundWhole | app/api/checkout/route.ts:31 | rounding leaves a whole number unchanged |
| CheckoutRoute.UnitAmountClose | app/api/checkout/route.ts:31 | the unit amount in cents is within half a cent of price × 100 |
| CheckoutRoute.ImagesOf | app/api/checkout/route.ts:29 | no images without an image; otherwise exactly one URL, the imgix URL followed by `?w=400&h=400&fit=crop&auto=format,compress` |
| CheckoutRoute.ToLineItem | app/api/checkout/route.ts:24-34 | currency "usd", the item's name and quantity, its images, and the unit amount rounded from price × 100 |
| CheckoutRoute.LineItems | app/api/checkout/route.ts:24-34 | one payment line per cart item, in cart order |
| CheckoutRoute.ToSnapshot | app/api/checkout/route.ts:39-45 | the snapshot copies productId, slug, name, price and quantity |
| CheckoutRoute.Snapshots | app/api/checkout/route.ts:37-47 | one snapshot per cart item, in cart order |
| CheckoutRoute.SnapshotsRestoreItems | app/api/checkout/route.ts:37-47 | a snapshot together with the dropped image gives back the cart item, so only the image is lost |
| CheckoutRoute.LinesMatchSnapshot | app/api/checkout/route.ts:24-47 | the payment lines and the snapshot agree, position by position, on name and quantity |
| CheckoutRoute.SessionRequestFor | app/api/checkout/route.ts:21-48 | mode "payment", card only, the line items and the snapshot, the success URL `origin + /checkout/success?session_id={CHECKOUT_SESSION_ID}` and the cancel URL `origin + /cart` |
| CheckoutRoute.Post | app/api/checkout/route.ts:9-56 | an unreadable body gives 500 with the error's message or "Internal server error"; missing or empty items give 400 "Cart is empty" and no session; otherwise a session is requested with origin defaulting to `http://localhost:3000`, and the answer is 200 with the session URL or 500 with the thrown message |
| CheckoutRoute.TwoAtNineteenNinetyNine | app/api/checkout/route.ts:18-50 | two units at 19.99 without an image give one line of 1999 cents with quantity 2, and the cancel URL uses the default origin |
| WebhookRoute.Route | app/api/webhook/route.ts:12-54 | in order: no signature gives 400 "Missing stripe-signature header"; no secret gives 500 "Webhook secret not configured"; a failed verification gives 400 "Webhook Error: " + message; an order is written exactly for a verified completed-session event; any other verified event gets `{received: true}` |
| WebhookRoute.GenerateOrderNumber | app/api/webhook/route.ts:6-10 | the order number starts with "CC-" |
| WebhookRoute.OrderNumberParts | app/api/webhook/route.ts:6-10 | the number splits on '-' into "CC", a base-36 token that reads back as the timestamp, and a random token of at most four characters |
| WebhookRoute.OrderNumbersDifferInTime | app/api/webhook/route.ts:6-10 | order numbers generated at different milliseconds differ |
| WebhookRoute.OrderDataFor | app/api/webhook/route.ts:41-47 | the order data falls back to "unknown@example.com" for the email and "[]" for the items, gives amount_total / 100 (0 when absent) as the total, and copies the session id |
| WebhookRoute.PaidSessionWithoutDetails | app/api/webhook/route.ts:41-47 | a session with only an amount of 2400 records the fallbacks and a total of 24 |
| WebhookRoute.Post | app/api/webhook/route.ts:12-55 | a guard's answer writes nothing; a completed session gets `{received: true}` and appends one order record when the insert succeeds; an insert failure is swallowed and the answer stays `{received: true}` |
| WebhookRoute.DeliveredTwice | app/api/webhook/route.ts:37-54 | delivering the same completed session twice appends two orders with different order numbers, because nothing checks for an existing one |
| OrdersRoute.Get | app/api/orders/route.ts:4-19 | a missing or empty email gives 400 "Email is required"; otherwise 200 with exactly the orders the lookup returned (`[]` on a 404), or 500 "Failed to look up orders"; the status is 200 exactly when the lookup succeeds |
| OrdersRoute.NoOrdersIsSuccess | app/api/orders/route.ts:12-14 | an address without orders is a 200 with an empty list, not an error |
| OrdersRoute.ListedOrdersBelongToEmail | app/api/orders/route.ts:12-14 | every listed order is an order record of the bucket carrying exactly that email |
| Cosmic.Matching | lib/cosmic.ts:190-198 | the records a query selects, never more than the bucket holds |
| Cosmic.MatchingMembers | lib/cosmic.ts:190-198 | a record is selected exactly when it is in the bucket and matches the query's type and field |
| Cosmic.MatchingAppend | lib/cosmic.ts:190-198 | selection keeps bucket order: selecting from a concatenation selects from each part |
| Cosmic.Find | lib/cosmic.ts:13-27 | the SDK's `find`: a transport fault is passed on, no match is a 404, and otherwise the matching records |
| Cosmic.FindOne | lib/cosmic.ts:30-47 | the SDK's `findOne`: a fault is passed on; otherwise the first matching record, or a 404 when none matches |
| Cosmic.FindOneIsFirstMatch | lib/cosmic.ts:30-47 | `findOne` succeeds exactly when some record matches, and then answers the first of them |
| Cosmic.ReadList | lib/cosmic.ts:13-27 | a list reader's translation: the matches, `[]` on a 404, or the reader's own error |
| Cosmic.ReadOne | lib/cosmic.ts:30-47 | a single reader's translation: the first match or null, null on a 404, or the reader's own error |
| Cosmic.ReadOneFound | lib/cosmic.ts:30-47 | a found record is in the bucket and matches; with no fault, null means that no record matches |
| Cosmic.OrderRecord | lib/cosmic.ts:171-182 | title "Order " + number, type orders, and metadata holding exactly the five order fields plus status "Paid" |
| Cosmic.Bucket.constructor | lib/cosmic.ts:5-10 | the bucket holds the given records |
| Cosmic.Bucket.GetProducts | lib/cosmic.ts:13-27 | with no fault, exactly the product records in bucket order (the selection `Matching` makes); `[]` on a 404; "Failed to fetch products" on any other fault |
| Cosmic.Bucket.GetProductBySlug | lib/cosmic.ts:30-47 | a product with that slug, null when there is none or on a 404; "Failed to fetch product" on any other fault |
| Cosmic.Bucket.GetCollections | lib/cosmic.ts:50-64 | with no fault, exactly the collection records in bucket order (the selection `Matching` makes); `[]` on a 404; "Failed to fetch collections" otherwise |
| Cosmic.Bucket.GetCollectionBySlug | lib/cosmic.ts:67-84 | a collection with that slug or null; "Failed to fetch collection" otherwise |
| Cosmic.Bucket.GetProductsByCollection | lib/cosmic.ts:87-104 | with no fault, exactly the products whose collection field is the id, in bucket order; `[]` on a 404; "Failed to fetch products by collection" otherwise |
| Cosmic.Bucket.GetReviews | lib/cosmic.ts:107-121 | with no fault, exactly the review records in bucket order (the selection `Matching` makes); `[]` on a 404; "Failed to fetch reviews" otherwise |
| Cosmic.Bucket.GetReviewsByProduct | lib/cosmic.ts:124-141 | with no fault, exactly the reviews whose product field is the id, in bucket order; `[]` on a 404; "Failed to fetch reviews by product" otherwise |
| Cosmic.Bucket.GetPageBySlug | lib/cosmic.ts:144-161 | a page with that slug or null; "Failed to fetch page" otherwise |
| Cosmic.Bucket.GetOrdersByEmail | lib/cosmic.ts:188-205 | exactly the orders whose customer_email is the address, in bucket order; `[]` on a 404; "Failed to fetch orders" otherwise |
| Cosmic.Bucket.GetOrderBySessionId | lib/cosmic.ts:208-229 | the first order with that session id, null when none matches or on a 404; "Failed to fetch order" otherwise |
| Cosmic.Bucket.CreateOrder | lib/cosmic.ts:164-185 | on success, appends exactly the order record and returns it; an insert failure propagates and the bucket is unchanged |
| Cosmic.CreatedOrderIsListed | lib/cosmic.ts:164-205 | after a create, the lookup by the order's email lists the earlier orders followed by the new one |
| Cosmic.SecondOrderForSession | lib/cosmic.ts:164-229 | creating an order for a session that already has one adds a second match, and the session lookup still answers the first |
| ContactActions.IndexOf | app/contact/actions.ts:26-27 | -1 exactly when the character is absent; otherwise its first position |
| ContactActions.IsEmailMatchesPattern | app/contact/actions.ts:26-27 | the executable check accepts exactly the strings `/^[^\s@]+@[^\s@]+\.[^\s@]+$/` accepts |
| ContactActions.ContactMail | app/contact/actions.ts:39-44 | sender and recipient are the shop's mailbox, reply-to is the email, the subject is "Contact Form: Message from " + name, and the text is `Name: …\nEmail: …\n\nMessage:\n…` |
| ContactActions.SendContactEmail | app/contact/actions.ts:10-82 | the checks run in order: a missing, empty or blank field gives "All fields are required."; an email the pattern rejects gives the invalid-email error; a missing key gives the not-configured error and nothing is sent; a mail is sent exactly when every check passes; a provider error and a throw map to their messages; success holds exactly when the error is null, and only for a delivered mail |
| ContactActions.PaddedEmailRejected | app/contact/actions.ts:22-29 | an email with leading whitespace passes the blank check (which trims) but fails the pattern (which does not) |
| AboutPage.StarFrom | app/about/page.tsx:85 | the first '*' at or after a position, or the end of the line |
| AboutPage.BoldEnd | app/about/page.tsx:85 | where a `\*\*[^*]+\*\*` match starting at p ends; -1 exactly when none starts there, and otherwise the span is a bold token |
| AboutPage.SplitBold | app/about/page.tsx:85 | the split with the capturing group always has an odd number of pieces |
| AboutPage.SplitBoldParts | app/about/page.tsx:85 | the pieces concatenate back to the line, and every odd piece is a bold token |
| AboutPage.TokensRenderBold | app/about/page.tsx:85-95 | every matched token renders as bold, showing a non-empty inner text without '*' that, wrapped in `**`, is the token |
| AboutPage.ToSegment | app/about/page.tsx:88-96 | a piece starting and ending with `**` is bold, showing `slice(2, -2)`; any other piece is plain and shown as is |
| AboutPage.Segments | app/about/page.tsx:88-97 | one segment per piece, in order |
| AboutPage.Classify | app/about/page.tsx:58-99 | "## " gives h2, "### " gives h3, "- " gives a list item, each without its prefix; any other line is a paragraph of the segments of its bold split |
| AboutPage.ClassifyRoundTrip | app/about/page.tsx:58-99 | a heading or list-item line is its block's prefix followed by its text; a paragraph line is the concatenation of its bold split |
| AboutPage.H3NeverH2 | app/about/page.tsx:58-72 | a "### " line is an h3, never an h2 |
| AboutPage.NonBlankLines | app/about/page.tsx:53-55 | the trimmed non-blank lines, none of them empty |
| AboutPage.ClassifyAll | app/about/page.tsx:53-99 | one block per line, in order |
| AboutPage.RenderFollowsLines | app/about/page.tsx:53-100 | the blocks follow the non-blank trimmed lines one to one, in order |
| AboutPage.AboutView | app/about/page.tsx:19-108 | heading and subtitle fall back to their defaults; the placeholder "Page content is coming soon…" appears exactly when there is no page, no content or empty content; otherwise the blocks of the content's lines |
| AboutPage.BoldInTheMiddle | app/about/page.tsx:85 | "a **b** c" splits into "a ", "**b**" and " c" |
| BlogPage.TrimAll | app/blog/page.tsx:57 | every piece trimmed, in order |
| BlogPage.DropEmpty | app/blog/page.tsx:57 | `filter(Boolean)`: no empty string remains |
| BlogPage.DropEmptyMembers | app/blog/page.tsx:57 | exactly the non-empty pieces remain |
| BlogPage.Tags | app/blog/page.tsx:56-58 | missing or empty tags give no tags |
| BlogPage.TagsAreClean | app/blog/page.tsx:57 | no tag is empty, contains ',' or has whitespace at either end |
| BlogPage.TagsRoundTrip | app/blog/page.tsx:57 | clean tags joined by commas parse back to the same tags, in order |
| BlogPage.ShownTags | app/blog/page.tsx:72 | the first min(3, n) tags |
| BlogPage.CardFor | app/blog/page.tsx:56-85 | the tag row appears exactly when there is a tag and shows the first three; the title is metadata.title when truthy and post.title otherwise |
| BlogPage.ShownTagsAreTags | app/blog/page.tsx:56-79 | a shown row holds one to three clean tags of the post |
| ProductsPage.Available | app/products/page.tsx:17 | the filter keeps at most all products |
| ProductsPage.AvailableMembers | app/products/page.tsx:17 | exactly the products not marked `available: false` remain |
| ProductsPage.AvailableAppend | app/products/page.tsx:17 | the filter keeps the original order |
| ProductsPage.AllAvailable | app/products/page.tsx:17 | when no product is marked unavailable, none is dropped |
| ProductsPage.CountLabel | app/products/page.tsx:25 | the label starts with the count in decimal |
| ProductsPage.CountLabelParts | app/products/page.tsx:25 | the label's words are the count (read back as n), "product" exactly when n is 1 and "products" otherwise, and "available" |
| ProductsPage.ChipFor | app/products/page.tsx:35-42 | a link to `/collections/` + slug showing the collection's name |
| ProductsPage.CollectionChips | app/products/page.tsx:35-43 | one chip per collection, in order |
| ProductsPage.ProductsView | app/products/page.tsx:17-58 | the count of available products; chips only when there are collections, "All" first then one per collection; the empty message "No products available at the moment." exactly when no product is available, otherwise the available products' cards |
| ProductsPage.EmptyListingIffNoneAvailable | app/products/page.tsx:17-57 | the empty message appears exactly when every product is marked unavailable, and every card is an available product |
| HomePage.Featured | app/page.tsx:14 | min(3, number of eligible) products, a prefix of the available ones in order |
| HomePage.FeaturedAreAvailable | app/page.tsx:14 | every featured product is one of the products and is not marked unavailable |
| HomePage.UnsetAvailableIsFeatured | app/page.tsx:14 | products without an `available` field are eligible: when the first three have none, they are the featured ones |
| HomePage.HomeView | app/page.tsx:61-127 | the collections, featured and reviews sections each appear exactly when their list is non-empty, and then show it |
| HomePage.FeaturedShownIffAnyAvailable | app/page.tsx:14-87 | the featured section appears exactly when some product is available, which is exactly when the listing page shows cards |
| Strings.TrimSpec | app/blog/page.tsx:57 | `trim` drops exactly the leading and trailing whitespace: the result sits in the string at some offset with only whitespace before and after it, is empty exactly for an all-whitespace string, and otherwise has no whitespace at either end |
| Strings.JoinSplit | app/blog/page.tsx:57 | joining the pieces of a split gives back the string |
| Strings.SplitJoin | app/blog/page.tsx:57 | splitting a join of separator-free pieces gives back the pieces |
| Strings.RadixRoundTrip | app/api/webhook/route.ts:7 | `toString(radix)` reads back as the number it was made from |

## Left out

- Stripe and its SDK: `constructEvent` and `checkout.sessions.create` are external calls. Their outcomes are parameters (`Verification`, `SessionOutcome`), and the raw body they read is not modelled.
- The Cosmic transport: the model does not cover networking, `props(...)`, `depth(1)` or the object fields these add. A transport fault is a parameter, and a `find` without matches answers a 404, which is what the readers translate.
- CMS order: the model keeps records in insertion order and takes that as the SDK's order.
- JSON: the internals of `JSON.stringify`/`JSON.parse` are not modelled. A blob is the encoding of a value or malformed text, and parse answers an `Option`.
- CartContext.LoadCartFromStorage: the `parsed as CartItem[]` cast is not modelled. Any parsed array is taken to hold well-formed items, because the stored value's elements are `Item`s in the model.
- CheckoutRoute.Post: the `as CheckoutRequestBody` cast is not modelled. A body is either an object whose `items` is absent or a cart item list, or a parse failure. A JSON `null` body, or an `items` that is a non-empty string or an object other than an array, makes the handler throw a TypeError (at `.items`, or at `.map` once an undefined `.length` has passed the empty-cart guard). That throw reaches the catch like a parse failure, so it is the `Unreadable` case with the TypeError's message and answers 500; the model does not derive it from the body's shape.
- `CartUtils.CartStore.GetCartFromStorage`: the `as CartState` cast is not modelled. Parsed text is taken to have a cart's shape, with whatever totals it was stored with.
- Storage errors: the quota errors of `localStorage.setItem` are not modelled. `saveCartToStorage` in `lib/cart-utils.ts` would throw; the one in `lib/cart-context.tsx` swallows them.
- Shared storage key: both carts use the key 'curated-commerce-cart' but each has its own slot here. Which of them a page mounts is decided by components (layout, CartButton) that are not part of this model.
- Floating point: prices and totals are exact reals, so the double rounding in `price * 100`, `amount_total / 100` and `toFixed(2)` is not modelled.
- Clock and randomness: `Date.now()` is a parameter in milliseconds. `Math.random().toString(36)` is a parameter string (the model states no alphabet for it), and only its `substring(2, 6)` and upper-casing are modelled.
- WebhookRoute.OrderNumberParts assumes the random text holds no '-'. `Math.random()` is never negative, so its base-36 text never does.
- The email provider: Resend is external, so its answer is a parameter (`SendOutcome`). The mail's `from`/`to` domain is a fixed constant, and the HTML body of the mail is markup and is not modelled.
- `console.error` logging is not modelled.
- React scheduling: StrictMode double effects, batching and the render cycle are not modelled. Each provider method stands for one callback plus the effect that follows its re-render.
- Rendering: JSX, CSS classes and these UI components are not modelled:
  - ProductCard, CollectionCard and ReviewCard;
  - the about page's hero image, its values section and its collections call to action;
  - the home page's hero cover image;
  - the blog card's subtitle, author and link.
- `getBlogPosts` is not part of this model. The blog card takes a post as input.
- Errors from `getPageBySlug`, `getCollections` and the other readers that propagate through the pages are not modelled. The page views take the readers' successful results.
- Metadata values: only strings, numbers, booleans and absent fields are modelled, not nested objects.
- Concurrency: races between tabs and concurrent webhook deliveries are not modelled.
