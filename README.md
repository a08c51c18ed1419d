# ShopHub storefront core, modelled in Dafny

ShopHub is a small web shop with an assistant named E-vee. It has two sides.

The FastAPI server keeps an in-memory cart per browser session. On that cart it builds:

- the `/cart`, `/checkout`, `/products` and `/chatbot` endpoints;
- a keyword-driven intent engine for the chatbot;
- a cache-aside layer that holds the Fake Store catalog in Redis;
- a builder that turns the catalog into documents for a vector store.

The Next.js client validates the checkout form and keeps state in several containers:

- the cart provider;
- the chat, checkout and product hooks;
- a session id in `localStorage`, with a route guard built on it;
- the landing page's "get started" step;
- the market page's category and search filter.

This project models that logic and proves properties of it.

**How the state is modelled**

- Code that mutates state is a class with methods. Each method is proved equal to a pure specification function of the old state: `...Spec` on the client, `After...` or `...Result` on the server. The properties the source promises are lemmas about those functions.
- The cart store holds one session's cart as a sequence of lines. The keys are distinct and kept in insertion order, as a Python dict is.
- Money is integer cents.
- Everything outside the code is an input:
  - what each `get_products()` call produced: the catalog list, or the text of the exception it raised;
  - the outcome of each HTTP call the client makes;
  - Redis faults and SCAN replies;
  - the Fake Store response;
  - the result of the semantic search.

Module layout (one file per module):

| file | models |
|---|---|
| `wrappers.dfy`, `seqs.dfy`, `text.dfy` | Option/Result; filter, subsequence and first-occurrence dedup; ASCII lower- and upper-casing, whitespace, trimming, UTF-16 length, decimal rendering |
| `catalog.dfy` | the catalog product and the `next(...)` lookups by id and by rendered id |
| `cart_lines.dfy`, `cart_service.dfy` | the server cart store |
| `http.dfy`, `cart_api.dfy`, `checkout_api.dfy`, `products_api.dfy`, `chatbot_api.dfy` | the HTTP handlers |
| `chatbot_intent.dfy`, `chatbot_service.dfy` | intent detection, id extraction, the handlers and the routing of `process_message` |
| `product_service.dfy` | the Redis cache-aside service |
| `embed_products.dfy` | the embedding document builder |
| `client_types.dfy`, `checkout_client.dfy`, `use_checkout.dfy`, `cart_context.dfy`, `use_chatbot.dfy`, `use_products.dfy` | the client API rule and state containers |
| `session.dfy`, `session_guard.dfy`, `landing_page.dfy`, `market_page.dfy` | the session store, the guard and the two pages |

## Model

| member | source | states |
|---|---|---|
| CartLines.Put | server/app/services/cart_service.py:69-72 | `d[key] = q`: afterwards the key maps to q, and the quantity sum changes by q minus the old value |
| CartLines.PutOthers | server/app/services/cart_service.py:69-72 | writing one product's quantity leaves every other product's quantity unchanged |
| CartLines.PutKeys | server/app/services/cart_service.py:69-72 | a product already in the cart keeps its position; a new product goes last (dict insertion order) |
| CartLines.PutWellFormed | server/app/services/cart_service.py:69-72 | writing a key keeps the cart's keys distinct |
| CartLines.Delete | server/app/services/cart_service.py:86-87 | `del d[key]` changes no other product's quantity and lowers the sum by the removed quantity |
| CartLines.DeleteWellFormed | server/app/services/cart_service.py:86-87 | after the delete the product has no entry, and the keys stay distinct |
| CartLines.DeleteKeys | server/app/services/cart_service.py:86-87 | deleting keeps the remaining keys in their original order |
| CartLines.DeleteAbsent | server/app/services/cart_service.py:86-87 | deleting an absent product changes nothing |
| CartLines.LookupIffKey | server/app/services/cart_service.py:69 | `key in d` holds exactly when the key is one of the cart's keys |
| CartService.BuildCartView | server/app/services/cart_service.py:19-45 | the accumulating loop of `get_cart` yields the cart view of the stored lines against the catalog |
| CartService.ItemsFollowCart | server/app/services/cart_service.py:26-38 | the item ids are exactly the cart's ids the catalog knows, in cart order; unknown ids are skipped |
| CartService.ItemsCarryCatalogAndQuantity | server/app/services/cart_service.py:27-37 | each item has its catalog product's title, price and image, the stored quantity, and subtotal = price·quantity |
| CartService.TotalOfUnknown | server/app/services/cart_service.py:28-43 | a cart of ids missing from the catalog has no items and total 0 (its item_count still counts them) |
| CartService.AfterGetPresent | server/app/services/cart_service.py:16-17 | `get_cart` on a known session leaves the store unchanged |
| CartService.OnlySessionTouched | server/app/services/cart_service.py:16-17 | each of get, add, remove, update and clear leaves the session present and every other session's cart exactly as it was (also lines 58-59, 86-87, 106-109 and 122-123) |
| CartService.StoreWellFormedUpdate | server/app/services/cart_service.py:5 | replacing one session's cart by a cart with distinct keys keeps every cart's keys distinct |
| CartService.OperationsKeepCartWellFormed | server/app/services/cart_service.py:69-109 | add, remove and update keep a cart's product ids distinct |
| CartService.AddKeepsCartWellFormed | server/app/services/cart_service.py:62-72 | adding to a cart with distinct product ids keeps them distinct |
| CartService.UpdateKeepsCartWellFormed | server/app/services/cart_service.py:103-109 | both branches of an update keep the product ids distinct |
| CartService.AddSemantics | server/app/services/cart_service.py:62-72 | an unknown product changes no quantity; a known one adds to the existing quantity or inserts it, adds that quantity to the sum, and leaves other products alone |
| CartService.UpdateSemantics | server/app/services/cart_service.py:103-109 | a quantity ≤ 0 gives exactly the store `remove_from_cart` gives; a positive quantity overwrites the product's quantity without a catalog check; other products are unchanged |
| CartService.RemoveSemantics | server/app/services/cart_service.py:86-90 | afterwards the product has no entry and other products are unchanged; removing an absent product only creates the session's empty cart |
| CartService.ClearSemantics | server/app/services/cart_service.py:122-125 | after a clear the session's view has no items, total 0 and item_count 0, whether or not the session existed |
| CartService.CartStore.constructor | server/app/services/cart_service.py:5 | the store starts empty |
| CartService.CartStore.GetCart | server/app/services/cart_service.py:8-45 | creates an empty cart for an unknown session; returns the view of the stored cart against the fetched catalog, whose item_count is the sum of all stored quantities, or the fetch error when `get_products()` raised |
| CartService.CartStore.AddToCart | server/app/services/cart_service.py:48-74 | creates the session's cart first; a failed catalog fetch changes nothing more and is the error; "Product {id} not found" exactly when the catalog lacks the id; otherwise the quantity is added and the result is the view of the new cart (or the error of the second fetch in `get_cart`) |
| CartService.CartStore.RemoveFromCart | server/app/services/cart_service.py:77-90 | the new store is the one after a remove, even when the final `get_cart` fetch fails; returns its view or that fetch error |
| CartService.CartStore.UpdateQuantity | server/app/services/cart_service.py:93-111 | the new store is the one after an update, even when the final `get_cart` fetch fails; returns its view or that fetch error |
| CartService.CartStore.ClearCart | server/app/services/cart_service.py:114-125 | the new store is the one after a clear, even when the final `get_cart` fetch fails; returns its (empty) view or that fetch error |
| CartService.CartStore.ItemCount | server/app/services/cart_service.py:128-139 | 0 for an unknown session (nothing is created), otherwise the sum of its quantities |
| Catalog.FirstMatch | server/app/services/cart_service.py:27 | `next((p for p in products if f(p)), None)`: the index of a matching product with no match before it; None exactly when nothing matches |
| Catalog.FindByKey | server/app/services/cart_service.py:27 | a product found by the key is in the catalog and its id renders as the key |
| Catalog.FindById | server/app/api/products.py:32 | a product found by id is in the catalog with that id; the lookup fails exactly when no product has the id |
| Catalog.FindIsFirst | server/app/api/products.py:32 | when some product passes, the lookup succeeds with a passing product that no earlier product precedes |
| Catalog.FindByKeyNone | server/app/services/cart_service.py:63-66 | the lookup by `str(p['id'])` fails exactly when no product's id renders as the key |
| Catalog.FindByKeyOfId | server/app/services/chatbot_service.py:316 | looking a product up by its rendered id finds the same product as looking it up by integer id |
| Http.ExceptionText | server/app/api/checkout.py:51 | `str()` of an HTTPException ends with its detail |
| Http.Wrap500Of400 | server/app/api/checkout.py:50-51 | a 400 caught by the broad `except` becomes a 500 whose detail is prefix + "400: " + detail |
| Http.Wrap500Of500 | server/app/api/chatbot.py:36-37 | a 500 caught by the broad `except` becomes a 500 whose detail is prefix + "500: " + detail |
| CartApi.AddRequestWithDefault | server/app/api/cart.py:14-16 | a request body without `quantity` adds one unit |
| CartApi.MissingHeaderLeavesStore | server/app/api/cart.py:26-27 | all five endpoints answer a missing or empty `session_id` with 400 "Missing session_id header" and leave the store untouched (also lines 38-39, 50-51, 62-63 and 74-75) |
| CartApi.AddUnknownProduct | server/app/api/cart.py:40-44 | with the catalog fetched, adding an unknown product is a 500 whose detail is "Product {id} not found", yet the session's empty cart has been created |
| CartApi.AddReportsNewCart | server/app/api/cart.py:41-42 | with the catalog fetched and a known product, the add succeeds exactly when the view fetch does and answers {"Item added to cart", cart after the add} |
| CartApi.FetchFailureIs500 | server/app/api/cart.py:23-80 | a raising catalog fetch makes every endpoint answer 500 with its text; view and a failed first add fetch only create the empty cart, while a failed second add fetch and update, remove and clear keep their change (lines 31-32, 43-44, 55-56, 67-68 and 79-80) |
| CartApi.ViewCart | server/app/api/cart.py:23-32 | the endpoint over the live store yields exactly the result and store of the view function: the guard, then `get_cart`, with a raised exception mapped to 500 |
| CartApi.AddItemToCart | server/app/api/cart.py:35-44 | the endpoint over the live store yields exactly the result and store of the add function: the guard, then `add_to_cart`, with the exception mapped to 500 |
| CartApi.UpdateCartItem | server/app/api/cart.py:47-56 | the endpoint over the live store yields exactly the result and store of the update function: the guard, then `update_quantity`, answering {message, cart} or 500 |
| CartApi.RemoveItemFromCart | server/app/api/cart.py:59-68 | the endpoint over the live store yields exactly the result and store of the remove function: the guard, then `remove_from_cart`, answering {message, cart} or 500 |
| CartApi.ClearUserCart | server/app/api/cart.py:71-80 | the endpoint over the live store yields exactly the result and store of the clear function: the guard, then `clear_cart`, answering {message, cart} or 500 |
| CheckoutApi.RoundHalfEven | server/app/api/checkout.py:67 | the result is n/d rounded to the nearest integer, ties going to the even one (Python's `round`) |
| CheckoutApi.RoundHalfEvenUnique | server/app/api/checkout.py:67 | that nearest-ties-to-even property determines the rounding uniquely |
| CheckoutApi.OrderIdShape | server/app/api/checkout.py:36 | the order id is "ORDER" followed by the upper-cased last six characters of the session id (all of a shorter one) |
| CheckoutApi.ShippingThreshold | server/app/api/checkout.py:68 | shipping is $5.00 exactly when the subtotal is below $50.00; $49.99 pays, $50.00 ships free |
| CheckoutApi.SummaryArithmetic | server/app/api/checkout.py:66-77 | subtotal is the cart total, tax is within half a cent of 7% of it, total = subtotal + tax + shipping, items and item_count pass through |
| CheckoutApi.MissingHeaderRejected | server/app/api/checkout.py:27-28 | both endpoints answer a missing header with 400 and leave the store alone (also lines 59-60) |
| CheckoutApi.CheckoutEmptyCart | server/app/api/checkout.py:30-33 | with the catalog fetched, an empty cart ends as a 500 "Checkout error: 400: Shipping address and email are required" (also lines 50-51) |
| CheckoutApi.SummaryEmptyCart | server/app/api/checkout.py:61-64 | with the catalog fetched, an empty cart ends as a 500 "Checkout summary error: 400: Cart is empty" (also lines 79-80) |
| CheckoutApi.CheckoutClearsCart | server/app/api/checkout.py:31-49 | a successful order empties the session's cart and reports the items and total from before the clear, with the derived order id; it succeeds exactly when the fetch inside `clear_cart` does |
| CheckoutApi.FetchFailureIs500 | server/app/api/checkout.py:21-80 | a raising first catalog fetch makes the summary answer 500 "Checkout summary error: …" and the order 500 "Checkout error: …", creating only the empty cart (lines 50-51 and 79-80) |
| CheckoutApi.ClearFetchFailureLosesOrder | server/app/api/checkout.py:31-51 | when the fetch inside `clear_cart` raises after a non-empty cart was read, the order answers 500 "Checkout error: …" yet the cart has been emptied |
| CheckoutApi.SummaryLeavesCart | server/app/api/checkout.py:62-78 | the summary changes no stored cart |
| CheckoutApi.CheckoutSummary | server/app/api/checkout.py:54-80 | the endpoint over the live store yields exactly the result and store of the summary function |
| CheckoutApi.ProcessCheckout | server/app/api/checkout.py:21-51 | the endpoint over the live store yields exactly the result and store of the order function |
| ProductsApi.ListProducts | server/app/api/products.py:18-25 | succeeds exactly when `get_products()` returns, with that catalog unchanged; a raised exception becomes a 500 carrying its text |
| ProductsApi.GetProductById | server/app/api/products.py:27-37 | a catalog product with that id, or, exactly when none has it, a 500 wrapping the 404 "Product {id} not found"; a failed fetch is a 500 with its text |
| ProductsApi.GetProductByIdIsFirst | server/app/api/products.py:32 | the product returned is the first with that id |
| ProductsApi.ProductsByCategorySpec | server/app/api/products.py:39-51 | the result is the catalog filtered by the case-folded category test; it holds exactly the products whose lower-cased category equals the lower-cased name, in catalog order; none gives a 500 wrapping the 404 |
| ProductsApi.SearchProductsSpec | server/app/api/products.py:53-69 | the result is the catalog filtered by the query test; it holds exactly the products whose lower-cased title or description contains the lower-cased query, in catalog order; none gives a 500 wrapping the 404 |
| ProductsApi.SearchEmptyQuery | server/app/api/products.py:58-62 | the empty query matches every product |
| ProductsApi.FilterKeepsExactly | server/app/api/products.py:44-47 | a comprehension's result is empty exactly when nothing passes, keeps order, and keeps every passing product |
| ProductsApi.FetchFailureIs500 | server/app/api/products.py:18-69 | when `get_products()` raises, each of the four endpoints answers 500 with the exception's text (lines 24-25, 36-37, 50-51 and 68-69) |
| ChatbotApi.Metadata | server/app/api/chatbot.py:34 | `metadata` holds exactly the reply's present keys other than response and intent, each with its value |
| ChatbotApi.ChatGuards | server/app/api/chatbot.py:20-23 | a missing header, and then a blank or whitespace message, answer 400 before the service runs |
| ChatbotApi.ChatNoReply | server/app/api/chatbot.py:28-29 | a None reply ends as a 500 "Chatbot error: 500: Chatbot failed to process the message" (also lines 36-37) |
| ChatbotApi.ChatCopiesReply | server/app/api/chatbot.py:31-34 | response and intent are copied verbatim, and metadata is the rest of the reply |
| ChatbotApi.BasicReplyNoMetadata | server/app/api/chatbot.py:34 | a reply with only response and intent has an empty metadata |
| ChatbotApi.GuardsLeaveStore | server/app/api/chatbot.py:20-23 | a rejected request is a 400 and never touches the cart store |
| ChatbotApi.ChatEndpoint | server/app/api/chatbot.py:17-37 | the endpoint over the live store yields exactly the result and store of the chat function |
| ChatbotIntent.RunEnd | server/app/services/chatbot_service.py:153 | a run of digits is maximal: digits up to the end, then a non-digit or the end of the string |
| ChatbotIntent.DigitRuns | server/app/services/chatbot_service.py:153 | `re.findall(r'\d+', ·)` yields non-empty all-digit strings |
| ChatbotIntent.StandaloneRuns | server/app/services/chatbot_service.py:145 | `re.findall(r'\b(\d+)\b', ·)` yields non-empty all-digit strings |
| ChatbotIntent.RawIds | server/app/services/chatbot_service.py:147-157 | the ids before deduplication are digit strings |
| ChatbotIntent.ExtractIdsSpec | server/app/services/chatbot_service.py:147-167 | the ids are distinct digit strings; every one is a raw match and every raw match appears in order of first occurrence; with no phrase match the raw matches are the standalone numbers |
| ChatbotIntent.ExtractProductIds | server/app/services/chatbot_service.py:147-167 | the two loops compute exactly the extraction function |
| ChatbotIntent.CollectRuns | server/app/services/chatbot_service.py:152-154 | the loop over the phrase matches concatenates each match's digit runs |
| ChatbotIntent.RunsOfMatches | server/app/services/chatbot_service.py:150-154 | the digit runs of all phrase matches, in match order, each a maximal run |
| ChatbotIntent.DedupStep | server/app/services/chatbot_service.py:162-165 | one step of the `seen` loop: the set mirrors the prefix, and an id joins the output only when unseen |
| ChatbotIntent.DedupIds | server/app/services/chatbot_service.py:159-165 | the `seen`-set loop keeps the first occurrence of each id |
| ChatbotIntent.DetectIntentIsFirstMatch | server/app/services/chatbot_service.py:96-134 | the detected intent's rule fires and no rule earlier in the cascade does |
| ChatbotIntent.FirstMatchIsDetected | server/app/services/chatbot_service.py:96-134 | an intent whose rule fires with no earlier rule firing is the detected one |
| ChatbotIntent.ShippingIsGreeting | server/app/services/chatbot_service.py:96-97 | any message containing "shipping" (which contains "hi") is a greeting |
| ChatbotIntent.AddMultipleIff | server/app/services/chatbot_service.py:96-105 | multi-add is chosen exactly when no greeting matches, "add" or "put" occurs and more than one id is extracted, ahead of the single-add phrases |
| ChatbotIntent.WantsIdsExactly | server/app/services/chatbot_service.py:30-32 | ids are extracted for every intent except greeting, shophub_info and unknown |
| ChatbotIntent.IdsFor | server/app/services/chatbot_service.py:30-32 | each of the other seven labels contains one of the keywords |
| ChatbotIntent.NoIdsFor | server/app/services/chatbot_service.py:30-32 | greeting, shophub_info and unknown contain none of the keywords |
| ChatbotService.ItemLines | server/app/services/chatbot_service.py:180-182 | one line per cart item, in order |
| ChatbotService.CartQueryReply | server/app/services/chatbot_service.py:173-189 | the cart-query reply carries the cart and its label |
| ChatbotService.CartQueryEmptyIff | server/app/services/chatbot_service.py:173-189 | the reply reports an empty cart exactly when item_count is 0 |
| ChatbotService.HandleCartQuery | server/app/services/chatbot_service.py:169-189 | over the live store: the reply and the store `get_cart` leaves |
| ChatbotService.CheckoutReply | server/app/services/chatbot_service.py:293-305 | the checkout reply carries the cart and its label |
| ChatbotService.CheckoutReadyIff | server/app/services/chatbot_service.py:293-305 | `checkout_ready` is True exactly when the cart has items, absent otherwise, with the empty-cart text |
| ChatbotService.HandleCheckout | server/app/services/chatbot_service.py:289-305 | over the live store: the reply and the store `get_cart` leaves |
| ChatbotService.PartitionSpec | server/app/services/chatbot_service.py:204-216 | each requested id lands in exactly one list, in request order: failed holds the unknown ids, added the products of the known ids |
| ChatbotService.AddAllLinesCount | server/app/services/chatbot_service.py:204-213 | the item count grows by exactly the number of products added |
| ChatbotService.AddAllUnknown | server/app/services/chatbot_service.py:204-209 | with no known id the cart lines are untouched |
| ChatbotService.AddMultipleReply | server/app/services/chatbot_service.py:222-245 | the reply has a cart key exactly when something was added |
| ChatbotService.NothingAddedNoCart | server/app/services/chatbot_service.py:219-226 | when nothing is added the reply has no cart and no added_products, and the cart lines are as before |
| ChatbotService.AddStep | server/app/services/chatbot_service.py:211-213 | one loop step adds the known id with quantity 1 to the session's cart |
| ChatbotService.HandleAddMultipleToCart | server/app/services/chatbot_service.py:191-245 | the loop over the live store yields exactly the reply and store of the multi-add function |
| ChatbotService.AddAndCheckoutReply | server/app/services/chatbot_service.py:265-287 | `checkout_ready` is present exactly when the cart has items |
| ChatbotService.AddAndCheckoutNothingAdded | server/app/services/chatbot_service.py:256-260 | when no requested product exists, the multi-add failure reply is returned unchanged, labelled add_multiple_to_cart |
| ChatbotService.HandleAddAndCheckout | server/app/services/chatbot_service.py:247-287 | over the live store: exactly the reply and store of the add-and-checkout function |
| ChatbotService.ProductByIdReply | server/app/services/chatbot_service.py:307-328 | the reply is labelled product_by_id |
| ChatbotService.ProductByIdFinds | server/app/services/chatbot_service.py:315-328 | a product is reported exactly when a catalog id renders as the requested one, and it is the first such product |
| ChatbotService.AddedReply | server/app/services/chatbot_service.py:349-354 | the added reply carries the cart after the add and the product |
| ChatbotService.HandleAddToCart | server/app/services/chatbot_service.py:330-359 | over the live store: one unit added, or the "Product {id} not found" text of the caught ValueError |
| ChatbotService.Route | server/app/services/chatbot_service.py:35-84 | the dispatch over the live store yields exactly the routing function's reply and store |
| ChatbotService.ProcessMessage | server/app/services/chatbot_service.py:15-84 | detect the intent on the lower-cased message, extract ids only when the label needs them, then dispatch |
| ChatbotService.ReadOnlyIntents | server/app/services/chatbot_service.py:35-78 | greeting, unknown, product lookup, the no-id add prompt and the searches never touch the cart store |
| ChatbotService.NoIdPrompts | server/app/services/chatbot_service.py:53-69 | with no id, product_by_id and add_to_cart answer their fixed prompts and change nothing |
| ChatbotService.RepliesCarryLabel | server/app/services/chatbot_service.py:35-84 | every reply built by the service carries its intent's label |
| ProductService.KeyNamespaces | server/app/services/product_service.py:195 | the per-product keys match `product:*`, and the list key does not |
| ProductService.FetchFromApi | server/app/services/product_service.py:56-105 | fails exactly when the URL is unset; a response body passes through; every request failure becomes `[]` |
| ProductService.FindInDoc | server/app/services/product_service.py:215 | over a list it is the first product with the id; over a product object the `.get` raises |
| ProductService.ScanStep | server/app/services/product_service.py:268-274 | one SCAN batch: its keys and size, then the rest unless its cursor is 0 |
| ProductService.Consumed | server/app/services/product_service.py:268-274 | the loop consumes replies through the first cursor-0 batch or the first failure |
| ProductService.Without | server/app/services/product_service.py:271 | deleting keys leaves exactly the other keys |
| ProductService.WithoutTwice | server/app/services/product_service.py:266-274 | deleting batch after batch equals deleting their union |
| ProductService.ClearCacheRemovesProductKeys | server/app/services/product_service.py:262-274 | when the SCAN replies cover every `product:*` key, no product key and no list key survives, and every other key stays |
| ProductService.CacheTtlResult | server/app/services/product_service.py:290-301 | the TTL when it is positive, otherwise (and on any failure) None |
| ProductService.CacheTtlOfMissingKey | server/app/services/product_service.py:294-295 | an absent list key, or one without expiry, answers None |
| ProductService.ClientCreatedOnce | server/app/services/product_service.py:20-41 | once created, the client is reused by every later call and no second one is created |
| ProductService.GetProductsConnectsOnce | server/app/services/product_service.py:119 | `get_products` changes the client only through `get_redis_client` |
| ProductService.GetProductsKeepsSingleton | server/app/services/product_service.py:108-180 | `get_products` creates no second client |
| ProductService.GetProductByIdKeepsSingleton | server/app/services/product_service.py:183-252 | `get_product_by_id`, with the `get_products` it runs, creates no second client |
| ProductService.CacheHitSkipsFetch | server/app/services/product_service.py:122-135 | without force_refresh a usable cached list is returned as it is; the Fake Store is not consulted and nothing is written |
| ProductService.MissFetchesAndCaches | server/app/services/product_service.py:139-169 | on a miss or force_refresh the Fake Store's answer is returned, and it is stored with the TTL exactly when it is non-empty and the write succeeds |
| ProductService.EmptyNeverCached | server/app/services/product_service.py:143-167 | `get_products` writes only the list key, and only the non-empty document it returns |
| ProductService.GetProductsRaisesOnlyOnFallback | server/app/services/product_service.py:171-180 | `get_products` raises only on the RedisError fallback with FAKE_STORE unset |
| ProductService.ByIdCacheFirst | server/app/services/product_service.py:197-209 | a usable `product:{id}` entry answers at once and leaves the keyspace alone |
| ProductService.ByIdSearchesList | server/app/services/product_service.py:213-240 | otherwise it answers the first list product with the id, or None, and stores a found product under its own key unless the write fails |
| ProductService.ByIdMainPathNeverRaises | server/app/services/product_service.py:193-252 | on the main path the lookup never raises |
| ProductService.Products.constructor | server/app/services/product_service.py:12-17 | no client yet, no connection counted, the given keyspace and settings |
| ProductService.Products.GetRedisClient | server/app/services/product_service.py:20-41 | the new state and raised fault are the connection function's; the singleton invariant is kept |
| ProductService.Products.GetProducts | server/app/services/product_service.py:108-180 | result and new state equal the `get_products` function of the old state |
| ProductService.Products.GetProductById | server/app/services/product_service.py:183-252 | result and new state equal the `get_product_by_id` function of the old state |
| ProductService.Products.GetCacheTtl | server/app/services/product_service.py:290-301 | result and new state equal the `get_cache_ttl` function of the old state |
| ProductService.Products.ClearCache | server/app/services/product_service.py:255-287 | after a failed connection nothing changes; otherwise the list key and every scanned key are removed and the batch sizes are counted |
| ProductService.Products.DeleteScanned | server/app/services/product_service.py:266-274 | the SCAN loop deletes every batch up to cursor 0 or a failure and sums their sizes |
| EmbedProducts.TypeMarksHubInfo | server/app/embeddings/embed_products.py:67-98 | only platform records carry `type`; no record has `content_type` (the builder spells it `content-type`), and product records have neither |
| EmbedProducts.ProductDocument | server/app/embeddings/embed_products.py:26-41 | the fixed frame "Product: … Price: $…" with the four fields, an absent one rendered as "" |
| EmbedProducts.DocumentOfEmptyProduct | server/app/embeddings/embed_products.py:34-41 | a product with no fields still yields the full frame |
| EmbedProducts.ProductMetadata | server/app/embeddings/embed_products.py:67-74 | the product record holds the id text and the five fields, absent ones as "" |
| EmbedProducts.Blocks | server/app/embeddings/embed_products.py:59 | one block per product, in catalog order |
| EmbedProducts.EntriesLength | server/app/embeddings/embed_products.py:59-99 | after k products the lists hold k·(2+F) entries |
| EmbedProducts.EntryAt | server/app/embeddings/embed_products.py:59-99 | entry j of product i's block sits at position i·(2+F)+j |
| EmbedProducts.ProductEntryAt | server/app/embeddings/embed_products.py:63-76 | product i's entry opens its block |
| EmbedProducts.HubEntryAt | server/app/embeddings/embed_products.py:79-85 | the platform description follows every product |
| EmbedProducts.FaqEntryAt | server/app/embeddings/embed_products.py:88-99 | FAQ j follows it at offset 2+j |
| EmbedProducts.ProductIdAt | server/app/embeddings/embed_products.py:76 | product entries get the id "product_{id}" |
| EmbedProducts.HubIdAt | server/app/embeddings/embed_products.py:85 | the description entries get the id "hub_info_description" |
| EmbedProducts.FaqIdAt | server/app/embeddings/embed_products.py:99 | FAQ entries get the id "hub_info_faq_{idx}" |
| EmbedProducts.HubIdRepeats | server/app/embeddings/embed_products.py:78-85 | from the second product on, "hub_info_description" occurs twice among the ids |
| EmbedProducts.BatchesGrow | server/app/embeddings/embed_products.py:101-111 | call k of `collection.add` gets the entries of the first k+1 products, in three lists of equal length |
| EmbedProducts.BatchesCount | server/app/embeddings/embed_products.py:59-111 | `collection.add` is called once per product; an empty catalog adds nothing |
| EmbedProducts.Collection.constructor | server/app/embeddings/embed_products.py:52 | the collection starts without batches |
| EmbedProducts.Collection.Add | server/app/embeddings/embed_products.py:106-111 | each `add` records its three lists |
| EmbedProducts.EmbedAndStore | server/app/embeddings/embed_products.py:43-111 | nothing for an empty catalog, otherwise the collection receives exactly the batches |
| EmbedProducts.AppendBlock | server/app/embeddings/embed_products.py:60-99 | one pass appends the block's documents, metadata and ids to the three lists in lockstep |
| EmbedProducts.Append | server/app/embeddings/embed_products.py:64-76 | appending one entry appends its document, metadata and id |
| CheckoutClient.EmailOkIff | client/lib/api/checkout.ts:58 | the computed email test accepts exactly the strings `^[^\s@]+@[^\s@]+\.[^\s@]+$` matches |
| CheckoutClient.ValidateCheckout | client/lib/api/checkout.ts:53-78 | valid exactly when there are no errors; each field's message is present exactly when its rule fails (empty or malformed email, phone or address shorter than 10 after trimming, empty payment method) |
| CheckoutClient.ErrorsInFieldOrder | client/lib/api/checkout.ts:56-72 | the errors come in the order email, phone, address, payment, with at most one per field |
| CheckoutClient.ValidFormMeetsEveryRule | client/lib/api/checkout.ts:58-77 | a valid form matches the email pattern, has phone and address of at least 10 trimmed UTF-16 units, and has a payment method |
| CheckoutClient.BlankPhoneRejected | client/lib/api/checkout.ts:62-64 | a whitespace-only phone always fails |
| CheckoutClient.PhoneDigitsNotChecked | client/lib/api/checkout.ts:62-64 | the phone rule counts characters, not digits: "abcdefghij" passes |
| CheckoutClient.ProcessErrorMessage | client/lib/api/checkout.ts:38-44 | the server's detail, else the transport message, else "Failed to process checkout"; never empty |
| CheckoutClient.Process | client/lib/api/checkout.ts:23-48 | success passes through; a failure is rethrown as a plain Error, with a message and no response |
| CheckoutClient.ProcessDropsDetail | client/lib/api/checkout.ts:46 | whatever the server said, a caller reading the detail of the rethrown error gets its fallback |
| UseCheckout.FetchSummarySpec | client/hooks/useCheckout.ts:19-33 | a success replaces the summary and clears the error; a failure keeps the summary and sets a non-empty error; loading ends false |
| UseCheckout.ProcessCheckoutSpec | client/hooks/useCheckout.ts:35-58 | returns true exactly when the form is valid and the order succeeds; the summary is never touched |
| UseCheckout.ResetCheckoutSpec | client/hooks/useCheckout.ts:60-64 | summary, orderResponse and error are cleared, and loading is unchanged |
| UseCheckout.InvalidFormSendsNothing | client/hooks/useCheckout.ts:39-43 | an invalid form's outcome has no influence; only the error changes, to the errors joined by ", " |
| UseCheckout.InvalidFormShowsErrors | client/hooks/useCheckout.ts:39-43 | a rejected form leaves a non-empty error |
| UseCheckout.AcceptedOrderStored | client/hooks/useCheckout.ts:45-50 | an accepted order is stored, the error is cleared, loading ends and true is returned |
| UseCheckout.RejectedOrderShowsFallback | client/hooks/useCheckout.ts:51-54 | a rejected order always shows "Failed to process checkout", because `process` rethrows without a response |
| UseCheckout.NetworkedStepsEndIdle | client/hooks/useCheckout.ts:31-32 | loading is false after every request that reached the network (also lines 55-57) |
| UseCheckout.CheckoutHook.constructor | client/hooks/useCheckout.ts:12-17 | all null, not loading |
| UseCheckout.CheckoutHook.FetchSummary | client/hooks/useCheckout.ts:19-33 | the new state is the fetch-summary function of the old |
| UseCheckout.CheckoutHook.ProcessCheckout | client/hooks/useCheckout.ts:35-58 | the returned flag and the new state are the process-checkout function of the old |
| UseCheckout.CheckoutHook.ResetCheckout | client/hooks/useCheckout.ts:60-64 | the new state is the reset function of the old |
| CartContext.OperationSpec | client/context/CartContext.tsx:38-112 | a success replaces the cart wholesale with the server's and clears the error; a failure keeps the cart and sets the detail or the fallback; loading ends false; the error is rethrown exactly when the operation rethrows and failed |
| CartContext.UseCart | client/context/CartContext.tsx:142-148 | the provider's value inside a provider; outside one, the "useCart must be used within a CartProvider" error |
| CartContext.RefreshSwallowsMutationsRethrow | client/context/CartContext.tsx:44-46 | refresh never throws; the mutations rethrow exactly their failures, with the same resulting state (also lines 61, 78, 94 and 108) |
| CartContext.SuccessForgetsPreviousCart | client/context/CartContext.tsx:42-43 | after a success the state does not depend on the previous state; the counters are the server cart's |
| CartContext.FailureKeepsCounters | client/context/CartContext.tsx:44-46 | a failure leaves item count and total as they were |
| CartContext.CartProvider.constructor | client/context/CartContext.tsx:29-31 | no cart, not loading, no error |
| CartContext.CartProvider.Run | client/context/CartContext.tsx:38-50 | the shared try/catch/finally body: the new state and raised error are the operation function of the old |
| CartContext.CartProvider.RefreshCart | client/context/CartContext.tsx:38-50 | a fetch of the cart whose error is swallowed |
| CartContext.CartProvider.AddToCart | client/context/CartContext.tsx:52-65 | sends the add request with the defaulted quantity; rethrows failures |
| CartContext.CartProvider.RemoveFromCart | client/context/CartContext.tsx:67-82 | sends the remove request; rethrows failures |
| CartContext.CartProvider.UpdateQuantity | client/context/CartContext.tsx:84-97 | sends the update request; rethrows failures |
| CartContext.CartProvider.ClearCart | client/context/CartContext.tsx:99-112 | sends the clear request; rethrows failures |
| CartContext.CartProvider.GetItemCount | client/context/CartContext.tsx:114-116 | the item count of the current state |
| CartContext.CartProvider.GetTotal | client/context/CartContext.tsx:118-120 | the total of the current state |
| UseChatbot.SendMessageSpec | client/hooks/useChatbot.ts:12-60 | the reply is returned exactly when the message is not blank and the request succeeds |
| UseChatbot.ClearChatSpec | client/hooks/useChatbot.ts:62-65 | messages and error are emptied, and loading is unchanged |
| UseChatbot.ResetErrorSpec | client/hooks/useChatbot.ts:67-69 | only the error is cleared |
| UseChatbot.BlankMessageIgnored | client/hooks/useChatbot.ts:14 | a blank or whitespace message returns null and changes nothing |
| UseChatbot.SendAppendsTwo | client/hooks/useChatbot.ts:23-52 | a non-blank send keeps earlier messages and appends exactly the user's untrimmed message and one assistant message |
| UseChatbot.FailedSendApologises | client/hooks/useChatbot.ts:40-57 | a failure sets the detail or "Failed to get response from chatbot", appends the apology, returns null, and ends not loading |
| UseChatbot.SuccessDropsAction | client/hooks/useChatbot.ts:31-39 | a success clears the error and ends not loading; the kept message does not depend on the reply's action |
| UseChatbot.Chatbot.constructor | client/hooks/useChatbot.ts:8-10 | no messages, not loading, no error |
| UseChatbot.Chatbot.SendMessage | client/hooks/useChatbot.ts:12-60 | the return value and new state are the send function of the old state |
| UseChatbot.Chatbot.ClearChat | client/hooks/useChatbot.ts:62-65 | the new state is the clear function of the old |
| UseChatbot.Chatbot.ResetError | client/hooks/useChatbot.ts:67-69 | the new state is the reset function of the old |
| UseProducts.FetchSpec | client/hooks/useProducts.ts:16-28 | a success replaces the data and clears the error; a failure keeps the data and sets the detail or the fallback; loading ends false |
| UseProducts.Fetched | client/hooks/useProducts.ts:52-53 | a fetched product is stored as present |
| UseProducts.ProductMountSpec | client/hooks/useProducts.ts:42-46 | id 0 (falsy) fetches nothing; any other id fetches and ends not loading |
| UseProducts.CategoryMountSpec | client/hooks/useProducts.ts:70-74 | an empty category fetches nothing; any other is fetched |
| UseProducts.SearchSpec | client/hooks/useProducts.ts:98-115 | a blank query empties the results without a request; any other query is fetched |
| UseProducts.ClearResultsSpec | client/hooks/useProducts.ts:117-120 | results and error are emptied |
| UseProducts.BlankSearchSendsNothing | client/hooks/useProducts.ts:99-102 | for a blank query the outcome has no influence, and loading and error stay as they were |
| UseProducts.FailureKeepsLastData | client/hooks/useProducts.ts:21-24 | a failed refetch after a success keeps the data of the success and sets an error |
| UseProducts.FetchIdempotent | client/hooks/useProducts.ts:16-28 | fetching the same outcome twice is the same as fetching it once |
| UseProducts.ProductsHook.constructor | client/hooks/useProducts.ts:8-10 | no products, loading from the start |
| UseProducts.ProductsHook.FetchProducts | client/hooks/useProducts.ts:16-32 | the new state is the fetch function of the old |
| UseProducts.ProductHook.constructor | client/hooks/useProducts.ts:38-40 | no product, loading from the start |
| UseProducts.ProductHook.FetchProduct | client/hooks/useProducts.ts:48-60 | the new state is the fetch function of the old |
| UseProducts.ProductHook.Mount | client/hooks/useProducts.ts:42-46 | the new state is the mount function of the old |
| UseProducts.CategoryHook.constructor | client/hooks/useProducts.ts:66-68 | no products, loading from the start |
| UseProducts.CategoryHook.FetchProducts | client/hooks/useProducts.ts:76-88 | the new state is the fetch function of the old |
| UseProducts.CategoryHook.Mount | client/hooks/useProducts.ts:70-74 | the new state is the mount function of the old |
| UseProducts.SearchHook.constructor | client/hooks/useProducts.ts:94-96 | no results, not loading |
| UseProducts.SearchHook.Search | client/hooks/useProducts.ts:98-115 | the new state is the search function of the old |
| UseProducts.SearchHook.ClearResults | client/hooks/useProducts.ts:117-120 | the new state is the clear function of the old |
| Session.LocalStorage.GetItem | client/lib/session.ts:15 | the stored value, or null for an absent key |
| Session.LocalStorage.SetItem | client/lib/session.ts:21 | the key now maps to the value, and nothing else changes |
| Session.LocalStorage.RemoveItem | client/lib/session.ts:29 | the key is gone, and nothing else changes |
| Session.HasSessionIffStoredNonEmpty | client/lib/session.ts:9 | there is a session exactly when a non-empty id is stored; an empty id counts as none |
| Session.OutsideBrowser | client/lib/session.ts:8 | outside a browser there is no session, and create and clear change nothing (also lines 14, 20 and 28) |
| Session.CreateThenGet | client/lib/session.ts:13-22 | after creating, getSession returns the id, and it is a session exactly when the id is non-empty |
| Session.ClearThenNone | client/lib/session.ts:27-30 | after clearing, there is no session and getSession is null |
| Session.OnlySessionKeyChanges | client/lib/session.ts:3 | create and clear touch only the key "shophub_session_id" |
| Session.HasSession | client/lib/session.ts:7-10 | over the browser store: the value-level session test |
| Session.GetSession | client/lib/session.ts:13-16 | over the browser store: the value-level read |
| Session.CreateSession | client/lib/session.ts:19-22 | the store afterwards is the value-level create of the store before |
| Session.ClearSession | client/lib/session.ts:27-30 | the store afterwards is the value-level clear of the store before |
| SessionGuard.Guard | client/components/SessionGuard.tsx:15-31 | children render exactly on "/" or with a session; otherwise nothing renders and the effect pushes "/" |
| SessionGuard.GuardOverStorage | client/components/SessionGuard.tsx:17-31 | on "/" children render with no redirect; with a session children render on every path; without one, off "/" the guard renders null and redirects to "/" |
| SessionGuard.ClearedSessionRedirects | client/components/SessionGuard.tsx:20-23 | after `clearSession` every page but "/" redirects there |
| LandingPage.GetStartedSpec | client/app/page.tsx:11-16 | a fresh id is stored under "sessionId" exactly when that key is absent or empty; otherwise nothing changes |
| LandingPage.GetStartedIdempotent | client/app/page.tsx:13 | a second click, with any fresh id, changes nothing more |
| LandingPage.GetStartedLeavesId | client/app/page.tsx:11-16 | afterwards the page's key holds a non-empty id, the old one when there was one |
| LandingPage.GetStartedKeepsSession | client/app/page.tsx:11-15 | the handler writes "sessionId", not the session key, so hasSession and getSession are unchanged |
| LandingPage.HandleGetStarted | client/app/page.tsx:10-19 | the store afterwards is the get-started function of the store before, and the target is "/market" |
| MarketPage.DistinctCategories | client/app/market/page.tsx:16 | the set of categories is duplicate-free and holds every product's category and nothing else |
| MarketPage.CategoriesFirstSeenOrder | client/app/market/page.tsx:16 | the distinct categories come in the order of their first product |
| MarketPage.AllCanRepeat | client/app/market/page.tsx:16 | a product whose category is "all" lists "all" a second time |
| MarketPage.FilterProducts | client/app/market/page.tsx:19-35 | the two filters applied in turn equal the one combined test: exact category unless "all", and for a non-blank query the lower-cased, untrimmed query in the lower-cased title or description |
| MarketPage.FilteredIsSubsequence | client/app/market/page.tsx:20-34 | the shown products keep catalog order |
| MarketPage.FilteredMembership | client/app/market/page.tsx:22-32 | a product is shown exactly when it passes both tests |
| MarketPage.AllAndBlankShowsEverything | client/app/market/page.tsx:20-34 | with "all" and a blank query every product is shown, in order |
| MarketPage.CategoryCaseSensitive | client/app/market/page.tsx:22-24 | the category test is case-sensitive: "electronics" does not show "Electronics" |
| MarketPage.CountLine | client/app/market/page.tsx:55 | the line reads "Showing … products" |
| MarketPage.ShownNeverExceedsTotal | client/app/market/page.tsx:55 | the shown count never exceeds the catalog size |

**Definitions.** These members are plain definitions. The lemmas and methods above state their properties.

- `ProductService.CacheTtlSetting` (server/app/services/product_service.py:15): `PRODUCTS_CACHE_TTL` defaults to 31536000 seconds.
- `ProductService.CachedDoc` (server/app/services/product_service.py:124-126): a cache hit is a key holding a decodable document.
- `EmbedProducts.IdText` (server/app/embeddings/embed_products.py:60): `str(product.get('id'))` is "None" for an absent id, otherwise the decimal id.
- `EmbedProducts.Block` (server/app/embeddings/embed_products.py:59-99): one pass of the loop appends the product, then the platform description, then every FAQ with its index: 2 + F entries.
- `EmbedProducts.Documents` (server/app/embeddings/embed_products.py:59-99): one document per entry (lines 64, 79 and 90).
- `EmbedProducts.Metadatas` (server/app/embeddings/embed_products.py:59-99): one metadata record per entry (lines 67, 80 and 92).
- `EmbedProducts.Ids` (server/app/embeddings/embed_products.py:59-99): one id per entry (lines 76, 85 and 99).
- `ClientTypes.DetailOr` (client/context/CartContext.tsx:45): `err?.response?.data?.detail || fallback`: the detail when it is a non-empty string, otherwise the fallback.
- `CartContext.AddQuantity` (client/context/CartContext.tsx:52): `quantity` defaults to 1.
- `CartContext.ItemCountOf` (client/context/CartContext.tsx:114-116): 0 without a cart, else its item_count.
- `CartContext.TotalOf` (client/context/CartContext.tsx:118-120): 0 without a cart, else its total.
- `UseChatbot.AssistantMessage` (client/hooks/useChatbot.ts:31-52): the assistant's message carries the reply text and intent, or the fixed apology without intent.
- `Session.SessionOf` (client/lib/session.ts:13-16): null outside a browser or without the key, otherwise the stored id.
- `Session.CreateSessionOf` (client/lib/session.ts:19-22): outside a browser nothing; otherwise the key is set to the id.
- `Session.ClearSessionOf` (client/lib/session.ts:27-30): outside a browser nothing; otherwise the key is removed.
- `MarketPage.CategoryList` (client/app/market/page.tsx:16): `products.map(p => p.category)`.
- `MarketPage.Categories` (client/app/market/page.tsx:16): "all" followed by the distinct categories.

## Left out

- Floating point. Prices, totals, subtotals and tax are integer cents. `round(total, 2)` (server/app/services/cart_service.py:43) is the identity on cents. The tax at server/app/api/checkout.py:67 rounds half-to-even on the exact rational 7%·subtotal, not on a binary float. The total at line 69 is a sum of cents, so it needs no rounding.
- CheckoutApi.SummaryArithmetic: the tax is stated as the nearest cent to 7% of the subtotal, ties to even, because binary-float rounding of `subtotal * 0.07` cannot be reproduced exactly.
- Text: case mapping and the regular-expression classes are ASCII only. Python's `str.lower`/`str.upper` and JavaScript's `toLowerCase` map every Unicode letter, and Python's `\d`, `\w` and `\b` are Unicode-aware. The model maps only `A`-`Z`, treats only `0`-`9` as digits, and only ASCII letters, digits and `_` as word characters. The members below inherit this.
- ProductsApi.ProductsByCategorySpec: "Électronique" and "électronique" match in Python but not in the model.
- ProductsApi.SearchProductsSpec: a query or title with non-ASCII capitals, such as "É", is compared without folding those letters.
- ChatbotIntent.DigitRuns: Arabic-Indic and other Unicode digits are matched by `\d` in Python but are not digits in the model.
- ChatbotIntent.StandaloneRuns: `\b` after a non-ASCII letter differs. For "café12", Python finds no standalone number, while the model finds "12".
- ChatbotIntent.RawIds, ChatbotIntent.ExtractIdsSpec and ChatbotService.ProcessMessage inherit the digit and word-boundary gap, and the lower-casing of the message is ASCII only.
- CheckoutApi.OrderIdShape and CheckoutApi.OrderId: `.upper()` is ASCII only in the model. Python maps other letters too, and can lengthen the id ('ß' becomes "SS").
- MarketPage.FilterProducts and MarketPage.MatchesQuery: `toLowerCase` is ASCII only in the model, so non-ASCII capitals in a query or title are not folded.
- The `"{status}: {detail}"` text of `str(HTTPException)` belongs to the web framework. The model fixes it in `Http.ExceptionText`.
- Async interleaving. Each awaited call is one atomic step with its outcome as an input. Left out: races between overlapping client calls, late responses after unmount, and the intermediate `loading = true` render.
- ChatbotService.ProcessMessage and the chatbot handlers: every `get_products()` call made while one message is handled is assumed to succeed with the same catalog. The products, cart and checkout endpoints take one outcome per call instead, failures included. A raise inside the chatbot would surface as the chatbot endpoint's 500 "Chatbot error: …", which is not modelled. With one catalog, the "not found after add" branch of `_handle_add_to_cart` (server/app/services/chatbot_service.py:343-347) cannot be reached. Neither can the exception branch of the multi-add loop (lines 214-216).
- The endpoints' `Catalog.Fetch` input is not derived from `ProductService.GetProductsSpec`. It stands for the product list `get_products()` returned, or the text of what it raised. A single product object cached under the list key, which the service would return as is, is not modelled as a catalog.
- The final `else` of `process_message` (server/app/services/chatbot_service.py:80-84) cannot be reached, because every intent has its own branch.
- ChatbotIntent.DetectIntent: pattern 1 (`products?\s+(...)`, server/app/services/chatbot_service.py:142) and the product-id test (line 120) are uninterpreted inputs. The digit runs found inside the pattern-1 matches and the `\b(\d+)\b` fallback are modelled character by character.
- The semantic search for product-search and store-info messages (server/app/services/chatbot_service.py:361-413) is left out. It calls a vector store and an embedding service, so its reply is an input.
- `create_embeddings`, the HuggingFace client and the Chroma client (server/app/embeddings/embed_products.py:11-24) are foreign services. `collection.add` is modelled only as recording its three lists. The embeddings vectors themselves are not modelled.
- The platform data `SHOPHUB_INFO` comes from a module that is not part of this model (server/app/embeddings/embed_products.py:5), so it is a parameter.
- `refresh_embedddings` (server/app/embeddings/embed_products.py:114-122) is outside the modelled functions. Note that it calls `clear_cache()` without `await`, so the coroutine never runs.
- The chatbot's search reads `metadata['type']` and `'content_type'`. The builder writes `type` only for platform records and spells the other key `content-type`. The model proves what the builder writes (`EmbedProducts.TypeMarksHubInfo`); the reading side belongs to the semantic search, which is left out.
- Printing and logging (`print`, `log_performance`, `log_error`, `log_info`, `log_warning`, `console.error`, `console.log`) are left out.
- ProductService: TTL expiry over time is not modelled. A written key keeps its TTL value and never expires.
- ProductService.Products.ClearCache: a failure of the batch `delete(*keys)` inside the scan loop is not a separate input. A failed SCAN reply ends the loop.
- ProductService: `setex` with a non-positive TTL (a Redis error) is not distinguished from other write faults. Write faults are inputs.
- `close_redis` (server/app/services/product_service.py:44-53) is outside the modelled functions and is left out.
- JSON decoding is a tagged value (`Doc` or undecodable). `json.loads` itself is not modelled.
- The Fake Store request is an outcome input (a body, a timeout, an HTTP error, a request error, or another error).
- UseProducts.ProductMountSpec: `id` is an integer, falsy only when 0, so a `NaN` id is not modelled.
- The client's `Product` type is declared in a file that is not part of this model. The client uses the server's catalog product shape (`Catalog.Product`).
- Wire-level mismatches are not modelled:
  - the client posts the order to `/checkout/process` (client/lib/api/checkout.ts:28), but the server route is `/` (server/app/api/checkout.py:21);
  - the server requires `total_amount` (server/app/api/checkout.py:11), which the client never sends;
  - the search hook reads `data.results` (client/hooks/useProducts.ts:108), which the server's list response does not have.

  The client's outcome inputs stand for whatever the server answered.
- `getSummary` and the other thin axios wrappers (client/lib/api/*.ts apart from the checkout error rule) pass their response through, so they are not modelled separately.
- The timestamps of chat messages (client/hooks/useChatbot.ts:20, 34, 49) are not modelled.
- The `metadata` field of the client's chat response is not modelled.
- `router.push` is modelled by its target path. Navigation itself is not modelled.
- `uuidv4()` is modelled by its result, passed in as `freshId`.
- The rendered JSX of the pages and the guard is not modelled, apart from the render/redirect decision and the count line.
- ChatbotService.CartQueryReply and the other cart and order replies: the `f"{x:.2f}"` money format is modelled on cents (a dollar part and two digits).
- ChatbotService.ProductByIdReply: `${product['price']}` prints the JSON value with `str`. The model's `Text.PriceText` assumes a whole price arrives as a JSON integer (printed "10") and any other price as a float with at most two decimals (printed "22.3", "9.99"). A whole price stored as a float differs: Python prints "10.0", the model "10".
