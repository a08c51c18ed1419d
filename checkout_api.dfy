/**
 * The checkout endpoints: the summary (7% tax, free shipping from $50) and
 * order placement, which empties the cart. Money is in cents.
 */
module CheckoutApi {
  import opened Wrappers
  import opened Text
  import opened Catalog
  import opened CartLines
  import opened CartService
  import opened Http

  /** The request body; the handler reads none of its fields. */
  datatype CheckoutRequest = CheckoutRequest(
    shippingAddress: string,
    paymentMethod: string,
    totalAmount: int,
    phone: Option<string>)

  datatype CheckoutResponse = CheckoutResponse(
    orderId: string,
    total: int,
    status: string,
    message: string,
    items: seq<CartItem>)

  datatype Summary = Summary(
    items: seq<CartItem>,
    subtotal: int,
    tax: int,
    shipping: int,
    total: int,
    itemCount: int)

  function Abs(x: int): int { if x < 0 then -x else x }

  /**
   * `n / d` rounded to the nearest integer, ties to the even neighbour:
   * Python's `round` on the exact quotient.
   */
  function RoundHalfEven(n: int, d: int): (r: int)
    requires d > 0
    ensures 2 * Abs(n - r * d) <= d
    ensures 2 * Abs(n - r * d) == d ==> r % 2 == 0
  {
    var q := n / d;
    var rem := n % d;
    assert n == q * d + rem;
    if 2 * rem < d then q
    else if 2 * rem > d then q + 1
    else if q % 2 == 0 then q
    else q + 1
  }

  /** The nearest-with-ties-to-even contract pins the result down uniquely. */
  lemma RoundHalfEvenUnique(n: int, d: int, r: int)
    requires d > 0
    requires 2 * Abs(n - r * d) <= d
    requires 2 * Abs(n - r * d) == d ==> r % 2 == 0
    ensures r == RoundHalfEven(n, d)
  {
    var s := RoundHalfEven(n, d);
    // both errors are within d/2, so r and s differ by at most one step of d,
    // and by exactly one only when both are ties, where both are even
    if r < s {
      StepApart(n, d, r, s);
    } else if r > s {
      StepApart(n, d, s, r);
    }
  }

  lemma MulAtLeastTwice(k: int, d: int)
    requires k >= 2 && d > 0
    ensures k * d >= 2 * d
  {
    var e := k - 2;
    assert k * d == e * d + 2 * d;
    assert e * d >= 0;
  }

  /** Two candidates within d/2 of n/d are at most one apart, and one apart only at a tie. */
  lemma StepApart(n: int, d: int, lo: int, hi: int)
    requires d > 0 && lo < hi
    requires 2 * Abs(n - lo * d) <= d && 2 * Abs(n - hi * d) <= d
    ensures hi == lo + 1
    ensures 2 * Abs(n - lo * d) == d && 2 * Abs(n - hi * d) == d
  {
    var k := hi - lo;
    var a, b := n - lo * d, n - hi * d;
    assert a - b == k * d;
    if k >= 2 {
      MulAtLeastTwice(k, d);
      assert false;
    }
    assert hi * d == lo * d + d;
  }

  /** `round(subtotal * 0.07, 2)` in cents. */
  function Tax(subtotal: int): int { RoundHalfEven(7 * subtotal, 100) }

  /** `5.00 if subtotal < 50 else 0.00` in cents. */
  function Shipping(subtotal: int): int { if subtotal < 5000 then 500 else 0 }

  function SummaryOf(v: CartView): Summary {
    var tax := Tax(v.total);
    var shipping := Shipping(v.total);
    Summary(v.items, v.total, tax, shipping, v.total + tax + shipping, v.itemCount)
  }

  /** `"ORDER" + session_id[-6:].upper()`: the last six characters, or all of a shorter id. */
  function OrderId(s: string): (r: string)
    requires s != ""
  {
    "ORDER" + Upper(LastN(s, 6))
  }

  /** The order id is "ORDER" followed by the upper-cased last (at most) six characters of the session id. */
  lemma OrderIdShape(s: string)
    requires s != ""
    ensures var k := if |s| < 6 then |s| else 6;
      |OrderId(s)| == 5 + k
      && OrderId(s)[..5] == "ORDER"
      && OrderId(s)[5..] == Upper(s[|s| - k..])
  {
    var tail := LastN(s, 6);
    assert OrderId(s) == "ORDER" + Upper(tail);
  }

  /** Shipping costs $5.00 exactly below $50.00; a $50.00 subtotal ships free. */
  lemma ShippingThreshold(subtotal: int)
    ensures Shipping(subtotal) == 500 <==> subtotal < 5000
    ensures Shipping(subtotal) == 0 <==> subtotal >= 5000
    ensures Shipping(4999) == 500 && Shipping(5000) == 0
  {
  }

  /** Tax is 7% of the subtotal to the nearest cent; the total is subtotal + tax + shipping. */
  lemma SummaryArithmetic(v: CartView)
    ensures var m := SummaryOf(v);
      m.subtotal == v.total
      && 2 * Abs(7 * v.total - 100 * m.tax) <= 100
      && m.total == m.subtotal + m.tax + m.shipping
      && m.items == v.items && m.itemCount == v.itemCount
  {
  }

  const SummaryErrorPrefix := "Checkout summary error: "
  const CheckoutErrorPrefix := "Checkout error: "

  /**
   * `checkout_summary` as a function of the store and of what the
   * `get_products()` inside `get_cart` produced: the result, and the store
   * afterwards (`get_cart` creates an empty cart for a new session).
   */
  function SummaryResult(carts: map<string, Lines>, h: Header, f: Fetch)
    : (Result<Summary, HttpError>, map<string, Lines>)
  {
    if HeaderMissing(h) then (Failure(MissingSession), carts)
    else
      var s := h.value;
      match f
      case Failure(e) => (Failure(HttpError(500, SummaryErrorPrefix + e)), AfterGet(carts, s))
      case Success(catalog) =>
        var v := CartViewOf(s, Inner(carts, s), catalog);
        if v.itemCount == 0 then
          (Failure(Wrap500(SummaryErrorPrefix, HttpError(400, "Cart is empty"))), AfterGet(carts, s))
        else (Success(SummaryOf(v)), AfterGet(carts, s))
  }

  /**
   * `process_checkout` as a function of the store: `f` is what `get_cart`'s
   * fetch produced, `g` what the fetch inside `clear_cart`'s own `get_cart`
   * produced.
   */
  function CheckoutResult(carts: map<string, Lines>, h: Header, f: Fetch, g: Fetch)
    : (Result<CheckoutResponse, HttpError>, map<string, Lines>)
  {
    if HeaderMissing(h) then (Failure(MissingSession), carts)
    else
      var s := h.value;
      match f
      case Failure(e) => (Failure(HttpError(500, CheckoutErrorPrefix + e)), AfterGet(carts, s))
      case Success(catalog) =>
        var v := CartViewOf(s, Inner(carts, s), catalog);
        if v.itemCount == 0 then
          (Failure(Wrap500(CheckoutErrorPrefix, HttpError(400, "Shipping address and email are required"))),
           AfterGet(carts, s))
        else
          match g
          case Failure(e) => (Failure(HttpError(500, CheckoutErrorPrefix + e)), AfterClear(carts, s))
          case Success(_) =>
            (Success(CheckoutResponse(OrderId(s), v.total, "Success", "Order placed successfully", v.items)),
             AfterClear(carts, s))
  }

  /** Both endpoints reject a missing or empty header with 400 and leave the store alone. */
  lemma MissingHeaderRejected(carts: map<string, Lines>, h: Header, f: Fetch, g: Fetch)
    requires HeaderMissing(h)
    ensures CheckoutResult(carts, h, f, g) == (Failure(HttpError(400, "Missing session_id header")), carts)
    ensures SummaryResult(carts, h, f) == (Failure(HttpError(400, "Missing session_id header")), carts)
  {
  }

  /**
   * An empty cart (item count 0) raises a 400 inside the `try`; the broad
   * `except` turns it into a 500 whose detail embeds "400: ...".
   */
  lemma CheckoutEmptyCart(carts: map<string, Lines>, s: string, catalog: seq<Product>, g: Fetch)
    requires s != "" && TotalQuantity(Inner(carts, s)) == 0
    ensures CheckoutResult(carts, Some(s), Success(catalog), g).0
      == Failure(HttpError(500, "Checkout error: " + "400: " + "Shipping address and email are required"))
  {
    Wrap500Of400(CheckoutErrorPrefix, "Shipping address and email are required");
  }

  lemma SummaryEmptyCart(carts: map<string, Lines>, s: string, catalog: seq<Product>)
    requires s != "" && TotalQuantity(Inner(carts, s)) == 0
    ensures SummaryResult(carts, Some(s), Success(catalog)).0
      == Failure(HttpError(500, "Checkout summary error: " + "400: " + "Cart is empty"))
  {
    Wrap500Of400(SummaryErrorPrefix, "Cart is empty");
  }

  /** A successful checkout empties the cart and reports the items and total from before the clear. */
  lemma CheckoutClearsCart(carts: map<string, Lines>, s: string, catalog: seq<Product>, g: Fetch)
    requires s != ""
    requires CheckoutResult(carts, Some(s), Success(catalog), g).0.Success?
    ensures var (r, after) := CheckoutResult(carts, Some(s), Success(catalog), g);
      var before := CartViewOf(s, Inner(carts, s), catalog);
      after == carts[s := []]
      && CartViewOf(s, after[s], catalog).itemCount == 0
      && r.value.items == before.items && r.value.total == before.total
      && r.value.orderId == OrderId(s)
      && before.itemCount != 0 && g.Success?
  {
  }

  /** A failed first fetch answers 500 with the exception's text; the cart is only created. */
  lemma FetchFailureIs500(carts: map<string, Lines>, s: string, e: string, g: Fetch)
    requires s != ""
    ensures SummaryResult(carts, Some(s), Failure(e))
      == (Failure(HttpError(500, "Checkout summary error: " + e)), AfterGet(carts, s))
    ensures CheckoutResult(carts, Some(s), Failure(e), g)
      == (Failure(HttpError(500, "Checkout error: " + e)), AfterGet(carts, s))
  {
  }

  /**
   * When the fetch inside `clear_cart` raises, the cart has already been
   * emptied, yet the client gets a 500 and no order id: the order is lost.
   */
  lemma ClearFetchFailureLosesOrder(carts: map<string, Lines>, s: string, catalog: seq<Product>, e: string)
    requires s != "" && TotalQuantity(Inner(carts, s)) != 0
    ensures CheckoutResult(carts, Some(s), Success(catalog), Failure(e))
      == (Failure(HttpError(500, "Checkout error: " + e)), carts[s := []])
  {
  }

  /** The summary never changes the cart's contents. */
  lemma SummaryLeavesCart(carts: map<string, Lines>, h: Header, f: Fetch)
    ensures var after := SummaryResult(carts, h, f).1;
      forall t :: t in carts ==> t in after && after[t] == carts[t]
  {
  }

  /** `checkout_summary` over the live store. */
  method CheckoutSummary(store: CartStore, h: Header, f: Fetch) returns (r: Result<Summary, HttpError>)
    modifies store
    ensures (r, store.carts) == SummaryResult(old(store.carts), h, f)
  {
    if HeaderMissing(h) {
      return Failure(MissingSession);
    }
    var res := store.GetCart(h.value, f);
    if res.Failure? {
      return Failure(HttpError(500, SummaryErrorPrefix + res.error));
    }
    var cart := res.value;
    if cart.itemCount == 0 {
      return Failure(Wrap500(SummaryErrorPrefix, HttpError(400, "Cart is empty")));
    }
    var subtotal := cart.total;
    var tax := Tax(subtotal);
    var shipping := Shipping(subtotal);
    var total := subtotal + tax + shipping;
    return Success(Summary(cart.items, subtotal, tax, shipping, total, cart.itemCount));
  }

  /** `process_checkout` over the live store. */
  method ProcessCheckout(store: CartStore, h: Header, request: CheckoutRequest, f: Fetch, g: Fetch)
    returns (r: Result<CheckoutResponse, HttpError>)
    modifies store
    ensures (r, store.carts) == CheckoutResult(old(store.carts), h, f, g)
  {
    if HeaderMissing(h) {
      return Failure(MissingSession);
    }
    var s := h.value;
    var res := store.GetCart(s, f);
    if res.Failure? {
      return Failure(HttpError(500, CheckoutErrorPrefix + res.error));
    }
    var cart := res.value;
    if cart.itemCount == 0 {
      return Failure(Wrap500(CheckoutErrorPrefix, HttpError(400, "Shipping address and email are required")));
    }
    var orderId := OrderId(s);
    var total := cart.total;
    var cleared := store.ClearCart(s, g);
    UpdateTwice(old(store.carts), s, Inner(old(store.carts), s), []);
    if cleared.Failure? {
      return Failure(HttpError(500, CheckoutErrorPrefix + cleared.error));
    }
    return Success(CheckoutResponse(orderId, total, "Success", "Order placed successfully", cart.items));
  }
}
