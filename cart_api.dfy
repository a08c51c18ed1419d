/**
 * The `/cart` router: each handler checks the `session_id` header, calls the
 * cart store, and turns any exception raised inside into a 500 whose detail
 * is the exception's text.
 */
module CartApi {
  import opened Wrappers
  import opened Catalog
  import opened CartLines
  import opened CartService
  import opened Http

  datatype AddToCartRequest = AddToCartRequest(productId: string, quantity: int)

  datatype UpdateQuantityRequest = UpdateQuantityRequest(productId: string, quantity: int)

  /** The `{"message": ..., "cart": ...}` body of the mutating endpoints. */
  datatype CartMessage = CartMessage(message: string, cart: CartView)

  /** A request body that leaves out `quantity` adds one unit. */
  function AddRequestWithDefault(productId: string, quantity: Option<int>): (r: AddToCartRequest)
    ensures r.productId == productId
    ensures quantity.None? ==> r.quantity == 1
    ensures quantity.Some? ==> r.quantity == quantity.value
  {
    AddToCartRequest(productId, quantity.GetOr(1))
  }

  /** The handlers' `except Exception as e: raise HTTPException(500, str(e))` around a store call. */
  function As500(r: Result<CartView, string>): Result<CartView, HttpError> {
    match r
    case Failure(e) => Failure(HttpError(500, e))
    case Success(v) => Success(v)
  }

  /** The `{"message": ..., "cart": ...}` answer, or the 500 of the raised exception. */
  function WithMessage(message: string, r: Result<CartView, string>): Result<CartMessage, HttpError> {
    match r
    case Failure(e) => Failure(HttpError(500, e))
    case Success(v) => Success(CartMessage(message, v))
  }

  /** `view_cart` as a function of the store and of what `get_products()` produced. */
  function ViewResult(carts: map<string, Lines>, h: Header, f: Fetch)
    : (Result<CartView, HttpError>, map<string, Lines>)
  {
    if HeaderMissing(h) then (Failure(MissingSession), carts)
    else
      var after := AfterGet(carts, h.value);
      (As500(ViewOrRaise(h.value, after[h.value], f)), after)
  }

  /**
   * What `add_to_cart` returns: `check` is its own `get_products()` call,
   * `view` the one in its final `get_cart`.
   */
  function AddReply(after: map<string, Lines>, s: string, productId: string, check: Fetch, view: Fetch)
    : Result<CartView, string>
  {
    match check
    case Failure(e) => Failure(e)
    case Success(catalog) =>
      if FindByKey(catalog, productId).None? then Failure("Product " + productId + " not found")
      else ViewOrRaise(s, Inner(after, s), view)
  }

  /** `add_item_to_cart` as a function of the store. */
  function AddResult(carts: map<string, Lines>, h: Header, req: AddToCartRequest, check: Fetch, view: Fetch)
    : (Result<CartMessage, HttpError>, map<string, Lines>)
  {
    if HeaderMissing(h) then (Failure(MissingSession), carts)
    else
      var s := h.value;
      var after := AddStore(carts, s, req.productId, req.quantity, check);
      (WithMessage("Item added to cart", AddReply(after, s, req.productId, check, view)), after)
  }

  /** `update_cart_item` as a function of the store. */
  function UpdateResult(carts: map<string, Lines>, h: Header, req: UpdateQuantityRequest, f: Fetch)
    : (Result<CartMessage, HttpError>, map<string, Lines>)
  {
    if HeaderMissing(h) then (Failure(MissingSession), carts)
    else
      var after := AfterUpdate(carts, h.value, req.productId, req.quantity);
      (WithMessage("Cart item updated", ViewOrRaise(h.value, after[h.value], f)), after)
  }

  /** `remove_item_from_cart` as a function of the store. */
  function RemoveResult(carts: map<string, Lines>, h: Header, productId: string, f: Fetch)
    : (Result<CartMessage, HttpError>, map<string, Lines>)
  {
    if HeaderMissing(h) then (Failure(MissingSession), carts)
    else
      var after := AfterRemove(carts, h.value, productId);
      (WithMessage("Item removed from cart", ViewOrRaise(h.value, after[h.value], f)), after)
  }

  /** `clear_user_cart` as a function of the store. */
  function ClearResult(carts: map<string, Lines>, h: Header, f: Fetch)
    : (Result<CartMessage, HttpError>, map<string, Lines>)
  {
    if HeaderMissing(h) then (Failure(MissingSession), carts)
    else
      var after := AfterClear(carts, h.value);
      (WithMessage("Cart cleared", ViewOrRaise(h.value, after[h.value], f)), after)
  }

  /** Every endpoint answers a missing or empty header with 400 and leaves the store alone. */
  lemma MissingHeaderLeavesStore(carts: map<string, Lines>, h: Header, productId: string, quantity: int,
                                 f: Fetch, g: Fetch)
    requires HeaderMissing(h)
    ensures ViewResult(carts, h, f) == (Failure(HttpError(400, "Missing session_id header")), carts)
    ensures AddResult(carts, h, AddToCartRequest(productId, quantity), f, g)
      == (Failure(HttpError(400, "Missing session_id header")), carts)
    ensures UpdateResult(carts, h, UpdateQuantityRequest(productId, quantity), f)
      == (Failure(HttpError(400, "Missing session_id header")), carts)
    ensures RemoveResult(carts, h, productId, f)
      == (Failure(HttpError(400, "Missing session_id header")), carts)
    ensures ClearResult(carts, h, f) == (Failure(HttpError(400, "Missing session_id header")), carts)
  {
  }

  /**
   * Adding an unknown product is a 500 naming the product, yet the session's
   * cart has been created (empty) by then and its contents are unchanged.
   */
  lemma AddUnknownProduct(carts: map<string, Lines>, s: string, req: AddToCartRequest, catalog: seq<Product>,
                          view: Fetch)
    requires s != "" && FindByKey(catalog, req.productId).None?
    ensures AddResult(carts, Some(s), req, Success(catalog), view)
      == (Failure(HttpError(500, "Product " + req.productId + " not found")), AfterGet(carts, s))
  {
  }

  /**
   * A known product is added; the answer is the cart after the add exactly
   * when the final `get_cart` gets a catalog.
   */
  lemma AddReportsNewCart(carts: map<string, Lines>, s: string, req: AddToCartRequest, catalog: seq<Product>,
                          view: Fetch)
    requires s != "" && FindByKey(catalog, req.productId).Some?
    ensures var (r, after) := AddResult(carts, Some(s), req, Success(catalog), view);
      (r.Success? <==> view.Success?)
      && (r.Success? ==> r.value.message == "Item added to cart"
                         && r.value.cart.itemCount == TotalQuantity(Inner(carts, s)) + req.quantity)
      && after[s] == AddLines(Inner(carts, s), req.productId, req.quantity, catalog)
  {
  }

  /**
   * When `get_products()` raises, every endpoint answers 500 with the
   * exception's text, and the store keeps what the operation did before
   * the raise: a created cart, or the whole change for the endpoints whose
   * only fetch is in their final `get_cart`.
   */
  lemma FetchFailureIs500(carts: map<string, Lines>, s: string, productId: string, quantity: int,
                          catalog: seq<Product>, e: string, view: Fetch)
    requires s != "" && FindByKey(catalog, productId).Some?
    ensures ViewResult(carts, Some(s), Failure(e)) == (Failure(HttpError(500, e)), AfterGet(carts, s))
    ensures AddResult(carts, Some(s), AddToCartRequest(productId, quantity), Failure(e), view)
      == (Failure(HttpError(500, e)), AfterGet(carts, s))
    ensures AddResult(carts, Some(s), AddToCartRequest(productId, quantity), Success(catalog), Failure(e))
      == (Failure(HttpError(500, e)), AfterAdd(carts, s, productId, quantity, catalog))
    ensures UpdateResult(carts, Some(s), UpdateQuantityRequest(productId, quantity), Failure(e))
      == (Failure(HttpError(500, e)), AfterUpdate(carts, s, productId, quantity))
    ensures RemoveResult(carts, Some(s), productId, Failure(e))
      == (Failure(HttpError(500, e)), AfterRemove(carts, s, productId))
    ensures ClearResult(carts, Some(s), Failure(e)) == (Failure(HttpError(500, e)), AfterClear(carts, s))
  {
  }

  method ViewCart(store: CartStore, h: Header, f: Fetch) returns (r: Result<CartView, HttpError>)
    modifies store
    ensures (r, store.carts) == ViewResult(old(store.carts), h, f)
  {
    if HeaderMissing(h) {
      return Failure(MissingSession);
    }
    var cart := store.GetCart(h.value, f);
    match cart
    case Failure(e) => return Failure(HttpError(500, e));
    case Success(v) => return Success(v);
  }

  method AddItemToCart(store: CartStore, h: Header, req: AddToCartRequest, check: Fetch, view: Fetch)
    returns (r: Result<CartMessage, HttpError>)
    modifies store
    ensures (r, store.carts) == AddResult(old(store.carts), h, req, check, view)
  {
    if HeaderMissing(h) {
      return Failure(MissingSession);
    }
    var res := store.AddToCart(h.value, req.productId, req.quantity, check, view);
    match res
    case Failure(e) => return Failure(HttpError(500, e));
    case Success(cart) => return Success(CartMessage("Item added to cart", cart));
  }

  method UpdateCartItem(store: CartStore, h: Header, req: UpdateQuantityRequest, f: Fetch)
    returns (r: Result<CartMessage, HttpError>)
    modifies store
    ensures (r, store.carts) == UpdateResult(old(store.carts), h, req, f)
  {
    if HeaderMissing(h) {
      return Failure(MissingSession);
    }
    var res := store.UpdateQuantity(h.value, req.productId, req.quantity, f);
    match res
    case Failure(e) => return Failure(HttpError(500, e));
    case Success(cart) => return Success(CartMessage("Cart item updated", cart));
  }

  method RemoveItemFromCart(store: CartStore, h: Header, productId: string, f: Fetch)
    returns (r: Result<CartMessage, HttpError>)
    modifies store
    ensures (r, store.carts) == RemoveResult(old(store.carts), h, productId, f)
  {
    if HeaderMissing(h) {
      return Failure(MissingSession);
    }
    var res := store.RemoveFromCart(h.value, productId, f);
    match res
    case Failure(e) => return Failure(HttpError(500, e));
    case Success(cart) => return Success(CartMessage("Item removed from cart", cart));
  }

  method ClearUserCart(store: CartStore, h: Header, f: Fetch) returns (r: Result<CartMessage, HttpError>)
    modifies store
    ensures (r, store.carts) == ClearResult(old(store.carts), h, f)
  {
    if HeaderMissing(h) {
      return Failure(MissingSession);
    }
    var res := store.ClearCart(h.value, f);
    match res
    case Failure(e) => return Failure(HttpError(500, e));
    case Success(cart) => return Success(CartMessage("Cart cleared", cart));
  }
}
