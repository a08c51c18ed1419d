/**
 * The chatbot's handlers and `process_message`'s routing. The semantic search that
 * answers product-search and store-info messages is an input.
 */
module ChatbotService {
  import opened Wrappers
  import opened Text
  import opened Seqs
  import opened Catalog
  import opened CartLines
  import opened CartService
  import opened ChatbotIntent

  /**
   * The reply dictionary. Its keys are fixed: `response` and `intent` are
   * always present, each of the others is `None` when the handler leaves it
   * out of the dictionary.
   */
  datatype Reply = Reply(
    response: string,
    intent: string,
    cart: Option<CartView>,
    product: Option<Product>,
    addedProducts: Option<seq<Product>>,
    failedProducts: Option<seq<string>>,
    checkoutReady: Option<bool>,
    results: Option<seq<map<string, string>>>)

  /** `{"response": response, "intent": intent}`. */
  function Basic(response: string, intent: string): Reply {
    Reply(response, intent, None, None, None, None, None, None)
  }

  const GreetingText := "Hey there! I'm E-vee, your shopping assistant. How can I help you today?"
  const UnknownText := "I'm not sure I understand. I can help you with:\n- Finding products\n- Checking your cart\n- Checking out your cart\n- Store info (shipping, returns, about...)\n- Adding items to cart\n\nWhat would you like to do?"
  const AskProductIdText := "Please provide a valid product ID. For example: 'Tell me about product 5'"
  const AskAddText := "Please specify which product to add. For example: 'Add product 5 to cart'"
  const AskAddMultipleText := "Please specify which products to add. For example: 'Add products 5, 6, and 7 to cart'"
  const AskAddCheckoutText := "Please specify which products to add and checkout. For example: 'Add products 5 and 9 and checkout'"
  const CartEmptyText := "Your cart is currently empty." + " Would you like to add some products?"
  const CheckoutEmptyText := "Your cart is empty. Add some products before checking out!"
  const AddCheckoutEmptyText := "Your cart is empty. Please add items before checking out."
  // the fixed pieces of the composed replies
  const CartHeading := "Here's what's in your cart:\n\n"
  const TotalLead := "\n\nTotal: $"
  const ReadyQuestion := "\n\nReady to checkout?"
  const OrderTotalLead := "Great! Your order total is $"
  const ForWord := " for "
  const CheckoutPageTail := " items. To complete checkout, please proceed to our checkout page where you can enter shipping and payment details."
  const NoneAddedLead := "Sorry, I couldn't add any of the products. Product IDs "
  const NotFoundTail := " were not found."
  const AddedLead := "Successfully added "
  const AddedTail := " items to your cart:"
  const NotFoundLead := "\nCould not find products: "
  const NowHasLead := "\nYour cart now has "
  const TotalingWord := " items totaling $"
  const AddedCountLead := "Added "
  const ReadyLead := " items to your cart!\n\nReady to checkout:\nTotal Items: "
  const AmountLead := "\nTotal Amount: $"
  const PurchaseTail := "\n\nTo complete your purchase, please proceed to the checkout page where you can enter your shipping and payment details."
  const NoSuchIdLead := "Sorry, I couldn't find a product with ID "
  const NoSuchIdTail := ". Please check the ID and try again."
  const PriceLead := "\n\nPrice: $"
  const CategoryLead := "\nCategory: "
  const AddThisQuestion := "\n\nWould you like to add this to your cart?"
  const AddedToCartMid := " to your cart! You now have "

  /** The bullet as the characters stand in the handler's source text. */
  const Bullet := "\U{00E2}\U{20AC}\U{00A2} "

  // ---------------------------------------------------------------- cart query

  function ItemLine(item: CartItem): string {
    "- " + item.title + " (x" + IntToString(item.quantity) + "): $" + FormatCents(item.subtotal)
  }

  function ItemLines(items: seq<CartItem>): (r: seq<string>)
    ensures |r| == |items|
    ensures forall i :: 0 <= i < |items| ==> r[i] == ItemLine(items[i])
  {
    if items == [] then [] else [ItemLine(items[0])] + ItemLines(items[1..])
  }

  function CartQueryReply(v: CartView): (r: Reply)
    ensures r.intent == Label(CartQuery) && r.cart == Some(v)
  {
    if v.itemCount == 0 then Basic(CartEmptyText, Label(CartQuery)).(cart := Some(v))
    else
      Basic(CartHeading + Join(ItemLines(v.items), "\n") + TotalLead + FormatCents(v.total) + ReadyQuestion,
            Label(CartQuery)).(cart := Some(v))
  }

  /** `_handle_cart_query` as a function of the store. */
  function CartQueryResult(carts: map<string, Lines>, s: string, catalog: seq<Product>): (Reply, map<string, Lines>) {
    (CartQueryReply(CartViewOf(s, Inner(carts, s), catalog)), AfterGet(carts, s))
  }

  /** The cart query reports an empty cart exactly when the item count is 0, and always carries the cart. */
  lemma CartQueryEmptyIff(v: CartView)
    ensures var r := CartQueryReply(v);
      (r.response == CartEmptyText <==> v.itemCount == 0)
      && r.cart == Some(v) && r.intent == Label(CartQuery)
  {
    var r := CartQueryReply(v);
    if v.itemCount != 0 {
      assert CartHeading[0] == 'H';
      assert CartEmptyText[0] == 'Y';
      assert r.response[0] == CartHeading[0];
    }
  }

  method HandleCartQuery(store: CartStore, s: string, catalog: seq<Product>) returns (r: Reply)
    modifies store
    ensures (r, store.carts) == CartQueryResult(old(store.carts), s, catalog)
  {
    var view := store.GetCart(s, Success(catalog));
    var cart := view.value;
    r := CartQueryReply(cart);
  }

  // ---------------------------------------------------------------- checkout

  function CheckoutReply(v: CartView): (r: Reply)
    ensures r.intent == Label(Checkout) && r.cart == Some(v)
  {
    if v.itemCount == 0 then Basic(CheckoutEmptyText, Label(Checkout)).(cart := Some(v))
    else
      Basic(OrderTotalLead + FormatCents(v.total) + ForWord + IntToString(v.itemCount) + CheckoutPageTail,
            Label(Checkout)).(cart := Some(v)).(checkoutReady := Some(true))
  }

  /** `_handle_checkout` as a function of the store. */
  function CheckoutResult(carts: map<string, Lines>, s: string, catalog: seq<Product>): (Reply, map<string, Lines>) {
    (CheckoutReply(CartViewOf(s, Inner(carts, s), catalog)), AfterGet(carts, s))
  }

  /** The checkout reply is ready to check out exactly when the cart has items; otherwise it reports the empty cart. */
  lemma CheckoutReadyIff(v: CartView)
    ensures var r := CheckoutReply(v);
      (r.checkoutReady == Some(true) <==> v.itemCount != 0)
      && (r.checkoutReady.None? <==> v.itemCount == 0)
      && (v.itemCount == 0 ==> r.response == CheckoutEmptyText)
      && r.cart == Some(v) && r.intent == Label(Checkout)
  {
  }

  method HandleCheckout(store: CartStore, s: string, catalog: seq<Product>) returns (r: Reply)
    modifies store
    ensures (r, store.carts) == CheckoutResult(old(store.carts), s, catalog)
  {
    var view := store.GetCart(s, Success(catalog));
    var cart := view.value;
    r := CheckoutReply(cart);
  }

  // ---------------------------------------------------------------- adding several products

  datatype AddOutcome = AddOutcome(added: seq<Product>, failed: seq<string>)

  /** The loop's two lists: each requested id, in order, goes to `added` (as its product) or to `failed`. */
  function Partition(ids: seq<string>, catalog: seq<Product>): AddOutcome {
    if ids == [] then AddOutcome([], [])
    else
      var o := Partition(ids[..|ids| - 1], catalog);
      match FindByKey(catalog, ids[|ids| - 1])
      case None => AddOutcome(o.added, o.failed + [ids[|ids| - 1]])
      case Some(p) => AddOutcome(o.added + [p], o.failed)
  }

  function KnownId(catalog: seq<Product>): string -> bool { (id: string) => FindByKey(catalog, id).Some? }

  function UnknownId(catalog: seq<Product>): string -> bool { (id: string) => FindByKey(catalog, id).None? }

  /**
   * Every requested id lands in exactly one list, in request order: `failed`
   * is the unknown ids, and `added` is the products of the known ids.
   */
  lemma {:induction false} PartitionSpec(ids: seq<string>, catalog: seq<Product>)
    ensures var o := Partition(ids, catalog);
      var known := Filter(ids, KnownId(catalog));
      o.failed == Filter(ids, UnknownId(catalog))
      && |o.added| == |known|
      && |o.added| + |o.failed| == |ids|
      && forall i :: 0 <= i < |o.added| ==> FindByKey(catalog, known[i]) == Some(o.added[i])
  {
    if ids != [] {
      var n := |ids|;
      var init, x := ids[..n - 1], ids[n - 1];
      assert ids == init + [x];
      PartitionSpec(init, catalog);
      FilterSnoc(init, x, KnownId(catalog));
      FilterSnoc(init, x, UnknownId(catalog));
    }
  }

  /** The cart lines after the loop: each known id added with quantity 1, in order. */
  function AddAllLines(ls: Lines, ids: seq<string>, catalog: seq<Product>): Lines {
    if ids == [] then ls
    else AddLines(AddAllLines(ls, ids[..|ids| - 1], catalog), ids[|ids| - 1], 1, catalog)
  }

  /** The item count grows by exactly the number of products added. */
  lemma {:induction false} AddAllLinesCount(ls: Lines, ids: seq<string>, catalog: seq<Product>)
    ensures TotalQuantity(AddAllLines(ls, ids, catalog)) == TotalQuantity(ls) + |Partition(ids, catalog).added|
  {
    if ids != [] {
      AddAllLinesCount(ls, ids[..|ids| - 1], catalog);
    }
  }

  /** With no known id the cart lines are untouched. */
  lemma {:induction false} AddAllUnknown(ls: Lines, ids: seq<string>, catalog: seq<Product>)
    requires Partition(ids, catalog).added == []
    ensures AddAllLines(ls, ids, catalog) == ls
  {
    if ids != [] {
      var o := Partition(ids[..|ids| - 1], catalog);
      assert FindByKey(catalog, ids[|ids| - 1]).None?;
      AddAllUnknown(ls, ids[..|ids| - 1], catalog);
    }
  }

  function AddMultipleReply(o: AddOutcome, v: CartView): (r: Reply)
    ensures r.intent == Label(AddMultipleToCart)
    ensures r.cart.Some? <==> o.added != []
  {
    if o.added == [] then
      Basic(NoneAddedLead + Join(o.failed, ", ") + NotFoundTail,
            Label(AddMultipleToCart))
    else
      var parts := [AddedLead + IntToString(|o.added|) + AddedTail]
        + seq(|o.added|, i requires 0 <= i < |o.added| => Bullet + o.added[i].title)
        + (if o.failed != [] then [NotFoundLead + Join(o.failed, ", ")] else [])
        + [NowHasLead + IntToString(v.itemCount) + TotalingWord + FormatCents(v.total)];
      Basic(Join(parts, "\n"), Label(AddMultipleToCart)).(cart := Some(v)).(addedProducts := Some(o.added))
        .(failedProducts := Some(o.failed))
  }

  /** `_handle_add_multiple_to_cart` as a function of the store. */
  function AddMultipleResult(carts: map<string, Lines>, s: string, ids: seq<string>, catalog: seq<Product>)
    : (Reply, map<string, Lines>)
  {
    if ids == [] then (Basic(AskAddMultipleText, Label(AddMultipleToCart)), carts)
    else
      var after := carts[s := AddAllLines(Inner(carts, s), ids, catalog)];
      (AddMultipleReply(Partition(ids, catalog), CartViewOf(s, after[s], catalog)), after)
  }

  /** When nothing could be added the reply has no cart key and the cart's lines are as before. */
  lemma NothingAddedNoCart(carts: map<string, Lines>, s: string, ids: seq<string>, catalog: seq<Product>)
    requires ids != [] && forall i :: 0 <= i < |ids| ==> FindByKey(catalog, ids[i]).None?
    ensures var (r, after) := AddMultipleResult(carts, s, ids, catalog);
      r.cart.None? && r.addedProducts.None? && after == AfterGet(carts, s)
  {
    PartitionSpec(ids, catalog);
    FilterNone(ids, KnownId(catalog));
    AddAllUnknown(Inner(carts, s), ids, catalog);
  }

  /** One loop step on the store: adding a known id with quantity 1 and then reading the cart. */
  lemma AddStep(c: map<string, Lines>, base: map<string, Lines>, s: string, lines: Lines, pid: string,
                catalog: seq<Product>)
    requires AfterGet(c, s) == base[s := lines]
    ensures AfterGet(AfterAdd(c, s, pid, 1, catalog), s) == base[s := AddLines(lines, pid, 1, catalog)]
  {
    assert Inner(c, s) == lines by {
      assert AfterGet(c, s)[s] == Inner(c, s);
    }
    var n := AddLines(lines, pid, 1, catalog);
    assert AfterGet(AfterAdd(c, s, pid, 1, catalog), s) == c[s := n];
    assert c[s := n] == c[s := lines][s := n];
    assert AfterGet(c, s) == c[s := lines];
  }

  /** The loop of `_handle_add_multiple_to_cart`, over the live store. */
  method HandleAddMultipleToCart(store: CartStore, s: string, ids: seq<string>, catalog: seq<Product>)
    returns (r: Reply)
    modifies store
    ensures (r, store.carts) == AddMultipleResult(old(store.carts), s, ids, catalog)
  {
    if ids == [] {
      return Basic(AskAddMultipleText, Label(AddMultipleToCart));
    }
    ghost var start := old(store.carts);
    ghost var lines0 := Inner(start, s);
    var added: seq<Product> := [];
    var failed: seq<string> := [];
    var k := 0;
    while k < |ids|
      invariant 0 <= k <= |ids|
      invariant AddOutcome(added, failed) == Partition(ids[..k], catalog)
      invariant AfterGet(store.carts, s) == start[s := AddAllLines(lines0, ids[..k], catalog)]
    {
      var pid := ids[k];
      assert ids[..k + 1][..k] == ids[..k];
      ghost var before := AddAllLines(lines0, ids[..k], catalog);
      match FindByKey(catalog, pid) {
        case None =>
          failed := failed + [pid];
        case Some(p) =>
          AddStep(store.carts, start, s, before, pid, catalog);
          var _ := store.AddToCart(s, pid, 1, Success(catalog), Success(catalog));
          added := added + [p];
      }
      k := k + 1;
    }
    assert ids[..k] == ids;
    var view := store.GetCart(s, Success(catalog));
    var cart := view.value;
    r := AddMultipleReply(AddOutcome(added, failed), cart);
  }

  // ---------------------------------------------------------------- adding, then checking out

  /** `not add_result.get('added_products')`. */
  predicate NothingAdded(r: Reply) {
    r.addedProducts.None? || r.addedProducts.value == []
  }

  function AddAndCheckoutReply(added: seq<Product>, v: CartView): (r: Reply)
    ensures r.intent == Label(AddAndCheckout)
    ensures r.checkoutReady.Some? <==> v.itemCount != 0
  {
    if v.itemCount == 0 then Basic(AddCheckoutEmptyText, Label(AddAndCheckout))
    else
      Basic(AddedCountLead + IntToString(|added|) + ReadyLead + IntToString(v.itemCount) + AmountLead
            + FormatCents(v.total) + PurchaseTail,
            Label(AddAndCheckout)).(cart := Some(v)).(checkoutReady := Some(true))
        .(addedProducts := Some(added))
  }

  /** `_handle_add_and_checkout` as a function of the store. */
  function AddAndCheckoutResult(carts: map<string, Lines>, s: string, ids: seq<string>, catalog: seq<Product>)
    : (Reply, map<string, Lines>)
  {
    if ids == [] then (Basic(AskAddCheckoutText, Label(AddAndCheckout)), carts)
    else
      var (r1, c1) := AddMultipleResult(carts, s, ids, catalog);
      if NothingAdded(r1) then (r1, c1)
      else (AddAndCheckoutReply(r1.addedProducts.value, CartViewOf(s, Inner(c1, s), catalog)), AfterGet(c1, s))
  }

  /**
   * When no requested product exists, add-and-checkout returns the
   * multi-add failure reply unchanged, labelled Label(AddMultipleToCart).
   */
  lemma AddAndCheckoutNothingAdded(carts: map<string, Lines>, s: string, ids: seq<string>, catalog: seq<Product>)
    requires ids != [] && forall i :: 0 <= i < |ids| ==> FindByKey(catalog, ids[i]).None?
    ensures AddAndCheckoutResult(carts, s, ids, catalog) == AddMultipleResult(carts, s, ids, catalog)
    ensures AddAndCheckoutResult(carts, s, ids, catalog).0.intent == Label(AddMultipleToCart)
  {
    NothingAddedNoCart(carts, s, ids, catalog);
  }

  method HandleAddAndCheckout(store: CartStore, s: string, ids: seq<string>, catalog: seq<Product>)
    returns (r: Reply)
    modifies store
    ensures (r, store.carts) == AddAndCheckoutResult(old(store.carts), s, ids, catalog)
  {
    if ids == [] {
      return Basic(AskAddCheckoutText, Label(AddAndCheckout));
    }
    var addResult := HandleAddMultipleToCart(store, s, ids, catalog);
    if NothingAdded(addResult) {
      return addResult;
    }
    var view := store.GetCart(s, Success(catalog));
    var cart := view.value;
    r := AddAndCheckoutReply(addResult.addedProducts.value, cart);
  }

  // ---------------------------------------------------------------- one product

  /** `_handle_product_by_id`: it reads the catalog only. */
  function ProductByIdReply(pid: string, catalog: seq<Product>): (r: Reply)
    ensures r.intent == Label(ProductById)
  {
    if pid == "" then Basic(AskProductIdText, Label(ProductById))
    else match FindByKey(catalog, pid)
      case None =>
        Basic(NoSuchIdLead + pid + NoSuchIdTail, Label(ProductById))
      case Some(p) =>
        Basic(p.title + PriceLead + PriceText(p.price) + CategoryLead + p.category + "\n\n" + p.description
              + AddThisQuestion, Label(ProductById)).(product := Some(p))
  }

  /** A product reply names the first catalog product whose id renders as the requested one. */
  lemma ProductByIdFinds(pid: string, catalog: seq<Product>)
    requires pid != ""
    ensures var r := ProductByIdReply(pid, catalog);
      (r.product.Some? <==> exists j :: 0 <= j < |catalog| && IdKey(catalog[j]) == pid)
      && (r.product.Some? ==> r.product == FindByKey(catalog, pid) && IdKey(r.product.value) == pid)
      && r.intent == Label(ProductById)
  {
    FindByKeyNone(catalog, pid);
  }

  function AddedReply(p: Product, v: CartView): (r: Reply)
    ensures r.intent == Label(AddToCart) && r.cart == Some(v) && r.product == Some(p)
  {
    Basic(AddedCountLead + p.title + AddedToCartMid + IntToString(v.itemCount) + TotalingWord
          + FormatCents(v.total) + ".", Label(AddToCart)).(cart := Some(v)).(product := Some(p))
  }

  /** `_handle_add_to_cart` as a function of the store: one unit, or the service's "not found" text. */
  function AddToCartResult(carts: map<string, Lines>, s: string, pid: string, catalog: seq<Product>)
    : (Reply, map<string, Lines>)
  {
    if pid == "" then (Basic(AskAddText, Label(AddToCart)), carts)
    else
      var after := AfterAdd(carts, s, pid, 1, catalog);
      match FindByKey(catalog, pid)
      case None => (Basic("Product " + pid + " not found", Label(AddToCart)), after)
      case Some(p) => (AddedReply(p, CartViewOf(s, after[s], catalog)), after)
  }

  method HandleAddToCart(store: CartStore, s: string, pid: string, catalog: seq<Product>) returns (r: Reply)
    modifies store
    ensures (r, store.carts) == AddToCartResult(old(store.carts), s, pid, catalog)
  {
    if pid == "" {
      return Basic(AskAddText, Label(AddToCart));
    }
    var res := store.AddToCart(s, pid, 1, Success(catalog), Success(catalog));
    match res
    case Failure(e) =>
      r := Basic(e, Label(AddToCart));
    case Success(cart) =>
      var product := FindByKey(catalog, pid).value;
      r := AddedReply(product, cart);
  }

  // ---------------------------------------------------------------- routing

  /** The handler `process_message` dispatches to, given the detected intent and the extracted ids. */
  function RouteResult(carts: map<string, Lines>, intent: Intent, ids: seq<string>, message: string, s: string,
                       catalog: seq<Product>, search: string -> Reply): (Reply, map<string, Lines>)
  {
    match intent
    case Greeting => (Basic(GreetingText, Label(Greeting)), carts)
    case CartQuery => CartQueryResult(carts, s, catalog)
    case AddMultipleToCart => AddMultipleResult(carts, s, ids, catalog)
    case AddAndCheckout => AddAndCheckoutResult(carts, s, ids, catalog)
    case Checkout => CheckoutResult(carts, s, catalog)
    case ProductById => if ids == [] then (Basic(AskProductIdText, Label(ProductById)), carts)
                        else (ProductByIdReply(ids[0], catalog), carts)
    case AddToCart => if ids == [] then (Basic(AskAddText, Label(AddToCart)), carts)
                      else AddToCartResult(carts, s, ids[0], catalog)
    case ProductSearch => (search(message), carts)
    case ShophubInfo => (search(message), carts)
    case Unknown => (Basic(UnknownText, Label(Unknown)), carts)
  }

  /** `process_message` as a function of the store; `search` answers the semantic-search intents. */
  function ProcessResult(carts: map<string, Lines>, message: string, s: string, p: Patterns, catalog: seq<Product>,
                         search: string -> Reply): (Reply, map<string, Lines>)
  {
    var intent := DetectIntent(p, Lower(message));
    RouteResult(carts, intent, if WantsIds(intent) then ExtractIds(p, message) else [], message, s, catalog, search)
  }

  /** The dispatch of `process_message`, over the live store. */
  method Route(store: CartStore, intent: Intent, ids: seq<string>, message: string, s: string, catalog: seq<Product>,
               search: string -> Reply) returns (r: Reply)
    modifies store
    ensures (r, store.carts) == RouteResult(old(store.carts), intent, ids, message, s, catalog, search)
  {
    match intent
    case Greeting => r := Basic(GreetingText, Label(Greeting));
    case CartQuery => r := HandleCartQuery(store, s, catalog);
    case AddMultipleToCart => r := HandleAddMultipleToCart(store, s, ids, catalog);
    case AddAndCheckout => r := HandleAddAndCheckout(store, s, ids, catalog);
    case Checkout => r := HandleCheckout(store, s, catalog);
    case ProductById =>
      if ids == [] {
        r := Basic(AskProductIdText, Label(ProductById));
      } else {
        r := ProductByIdReply(ids[0], catalog);
      }
    case AddToCart =>
      if ids == [] {
        r := Basic(AskAddText, Label(AddToCart));
      } else {
        r := HandleAddToCart(store, s, ids[0], catalog);
      }
    case ProductSearch => r := search(message);
    case ShophubInfo => r := search(message);
    case Unknown => r := Basic(UnknownText, Label(Unknown));
  }

  /** `process_message`: detect the intent, extract the ids the handler needs, dispatch. */
  method ProcessMessage(store: CartStore, message: string, s: string, p: Patterns, catalog: seq<Product>,
                        search: string -> Reply) returns (r: Reply)
    modifies store
    ensures (r, store.carts) == ProcessResult(old(store.carts), message, s, p, catalog, search)
  {
    var intent := DetectIntent(p, Lower(message));
    var ids: seq<string> := [];
    if WantsIds(intent) {
      ids := ExtractProductIds(p, message);
    }
    r := Route(store, intent, ids, message, s, catalog, search);
  }

  /**
   * Greetings, unknown messages, product lookups, the no-id prompts and the
   * searches never touch the cart store.
   */
  lemma ReadOnlyIntents(carts: map<string, Lines>, intent: Intent, ids: seq<string>, message: string, s: string,
                        catalog: seq<Product>, search: string -> Reply)
    requires intent in {Greeting, Unknown, ProductById, ProductSearch, ShophubInfo}
      || (intent == AddToCart && ids == [])
    ensures RouteResult(carts, intent, ids, message, s, catalog, search).1 == carts
  {
  }

  /** With no id in the message the product and add intents answer with a fixed prompt. */
  lemma NoIdPrompts(carts: map<string, Lines>, message: string, s: string, p: Patterns, catalog: seq<Product>,
                    search: string -> Reply)
    requires ExtractIds(p, message) == []
    ensures DetectIntent(p, Lower(message)) == ProductById ==>
      ProcessResult(carts, message, s, p, catalog, search) == (Basic(AskProductIdText, Label(ProductById)), carts)
    ensures DetectIntent(p, Lower(message)) == AddToCart ==>
      ProcessResult(carts, message, s, p, catalog, search) == (Basic(AskAddText, Label(AddToCart)), carts)
  {
  }

  /** Every reply built here (not the search's) carries its intent's label. */
  lemma RepliesCarryLabel(carts: map<string, Lines>, intent: Intent, ids: seq<string>, message: string, s: string,
                          catalog: seq<Product>, search: string -> Reply)
    requires intent != ProductSearch && intent != ShophubInfo && intent != AddAndCheckout
    ensures var r := RouteResult(carts, intent, ids, message, s, catalog, search).0;
      r.intent == Label(intent)
  {
  }
}
