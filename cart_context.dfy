/**
 * The cart provider shared by the client's pages. The server is an oracle
 * from the request sent to its outcome: the cart in the response, or the
 * rejected request. The client does no arithmetic on the cart itself.
 */
module CartContext {
  import opened Wrappers
  import opened ClientTypes

  /** The five requests of the cart API client, with the values each one carries. */
  datatype CartRequest =
    | FetchCart
    | AddItem(productId: string, quantity: int)
    | RemoveItem(productId: string)
    | UpdateItem(productId: string, quantity: int)
    | ClearItems

  type CartServer = CartRequest -> Result<Cart, ApiError>

  const RefreshFallback := "Failed to fetch cart"
  const AddFallback := "Failed to add item to cart"
  const RemoveFallback := "Failed to remove item from cart"
  const UpdateFallback := "Failed to update quantity"
  const ClearFallback := "Failed to clear cart"
  const OutsideProvider := "useCart must be used within a CartProvider"

  /** The quantity `addToCart` sends when its caller gives none. */
  const DefaultQuantity := 1

  datatype CartState = CartState(cart: Option<Cart>, loading: bool, error: Option<string>)

  const Initial := CartState(None, false, None)

  /**
   * One cart operation: the server's cart replaces the local one wholesale,
   * or the local one stays and the error becomes the detail or `fallback`.
   * The second component is the error rethrown to the caller, when `rethrow`.
   */
  function OperationSpec(st: CartState, outcome: Result<Cart, ApiError>, fallback: string, rethrow: bool)
    : (r: (Option<ApiError>, CartState))
    ensures !r.1.loading
    ensures outcome.Success? ==> r.1.cart == Some(outcome.value) && r.1.error.None? && r.0.None?
    ensures outcome.Failure? ==> r.1.cart == st.cart && r.1.error == Some(DetailOr(outcome.error, fallback))
    ensures r.0.Some? <==> rethrow && outcome.Failure?
    ensures r.0.Some? ==> r.0.value == outcome.error
  {
    match outcome
    case Success(c) => (None, CartState(Some(c), false, None))
    case Failure(err) => (if rethrow then Some(err) else None, st.(loading := false, error := Some(DetailOr(err, fallback))))
  }

  /** `quantity: number = 1`. */
  function AddQuantity(quantity: Option<int>): int {
    quantity.GetOr(DefaultQuantity)
  }

  /** `cart?.item_count || 0`. */
  function ItemCountOf(st: CartState): int {
    if st.cart.Some? then st.cart.value.itemCount else 0
  }

  /** `cart?.total || 0`. */
  function TotalOf(st: CartState): int {
    if st.cart.Some? then st.cart.value.total else 0
  }

  /** `useCart`: the provider's value, or the error thrown outside a provider. */
  function UseCart<V>(context: Option<V>): (r: Result<V, string>)
    ensures r.Success? <==> context.Some?
    ensures r.Success? ==> r.value == context.value
    ensures r.Failure? ==> r.error == OutsideProvider
  {
    match context
    case Some(v) => Success(v)
    case None => Failure(OutsideProvider)
  }

  /** A refresh never throws, whatever the server answers; the mutations rethrow exactly their failures. */
  lemma RefreshSwallowsMutationsRethrow(st: CartState, outcome: Result<Cart, ApiError>, fallback: string)
    ensures OperationSpec(st, outcome, fallback, false).0.None?
    ensures OperationSpec(st, outcome, fallback, true).0.Some? <==> outcome.Failure?
    ensures OperationSpec(st, outcome, fallback, false).1 == OperationSpec(st, outcome, fallback, true).1
  {
  }

  /** After a success the counters are read from the server's cart: nothing is kept from before. */
  lemma SuccessForgetsPreviousCart(s1: CartState, s2: CartState, c: Cart, fallback: string, rethrow: bool)
    ensures OperationSpec(s1, Success(c), fallback, rethrow) == OperationSpec(s2, Success(c), fallback, rethrow)
    ensures ItemCountOf(OperationSpec(s1, Success(c), fallback, rethrow).1) == c.itemCount
    ensures TotalOf(OperationSpec(s1, Success(c), fallback, rethrow).1) == c.total
  {
  }

  /** A failure leaves both counters as they were. */
  lemma FailureKeepsCounters(st: CartState, err: ApiError, fallback: string, rethrow: bool)
    ensures ItemCountOf(OperationSpec(st, Failure(err), fallback, rethrow).1) == ItemCountOf(st)
    ensures TotalOf(OperationSpec(st, Failure(err), fallback, rethrow).1) == TotalOf(st)
  {
  }

  class CartProvider {
    var cart: Option<Cart>
    var loading: bool
    var error: Option<string>

    function Snapshot(): CartState
      reads this
    {
      CartState(cart, loading, error)
    }

    /** The provider's initial state; mounting it then runs `RefreshCart`. */
    constructor ()
      ensures Snapshot() == Initial
    {
      cart := None;
      loading := false;
      error := None;
    }

    /** The shared body of all five operations. */
    method Run(request: CartRequest, server: CartServer, fallback: string, rethrow: bool) returns (raised: Option<ApiError>)
      modifies this
      ensures (raised, Snapshot()) == OperationSpec(old(Snapshot()), server(request), fallback, rethrow)
    {
      loading := true;
      error := None;
      raised := None;
      match server(request) {
        case Success(c) =>
          cart := Some(c);
        case Failure(err) =>
          error := Some(DetailOr(err, fallback));
          if rethrow {
            raised := Some(err);
          }
      }
      loading := false;
    }

    method RefreshCart(server: CartServer)
      modifies this
      ensures (None, Snapshot()) == OperationSpec(old(Snapshot()), server(FetchCart), RefreshFallback, false)
    {
      var raised := Run(FetchCart, server, RefreshFallback, false);
    }

    method AddToCart(productId: string, quantity: Option<int>, server: CartServer) returns (raised: Option<ApiError>)
      modifies this
      ensures (raised, Snapshot())
              == OperationSpec(old(Snapshot()), server(AddItem(productId, AddQuantity(quantity))), AddFallback, true)
    {
      raised := Run(AddItem(productId, AddQuantity(quantity)), server, AddFallback, true);
    }

    method RemoveFromCart(productId: string, server: CartServer) returns (raised: Option<ApiError>)
      modifies this
      ensures (raised, Snapshot()) == OperationSpec(old(Snapshot()), server(RemoveItem(productId)), RemoveFallback, true)
    {
      raised := Run(RemoveItem(productId), server, RemoveFallback, true);
    }

    method UpdateQuantity(productId: string, quantity: int, server: CartServer) returns (raised: Option<ApiError>)
      modifies this
      ensures (raised, Snapshot())
              == OperationSpec(old(Snapshot()), server(UpdateItem(productId, quantity)), UpdateFallback, true)
    {
      raised := Run(UpdateItem(productId, quantity), server, UpdateFallback, true);
    }

    method ClearCart(server: CartServer) returns (raised: Option<ApiError>)
      modifies this
      ensures (raised, Snapshot()) == OperationSpec(old(Snapshot()), server(ClearItems), ClearFallback, true)
    {
      raised := Run(ClearItems, server, ClearFallback, true);
    }

    function GetItemCount(): (n: int)
      reads this
      ensures n == ItemCountOf(Snapshot())
    {
      if cart.Some? then cart.value.itemCount else 0
    }

    function GetTotal(): (t: int)
      reads this
      ensures t == TotalOf(Snapshot())
    {
      if cart.Some? then cart.value.total else 0
    }
  }
}
