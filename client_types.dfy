/**
 * The client's record shapes and the one error rule its hooks share. Money
 * is in integer cents, as on the server; products are the catalog records.
 * A failed API call is the rejected axios error: the response body's
 * `detail` when there was a response carrying one, and the error's message.
 */
module ClientTypes {
  import opened Wrappers

  datatype CartItem = CartItem(productId: string, title: string, price: int, quantity: int, subtotal: int,
                               image: string)

  datatype Cart = Cart(sessionId: string, items: seq<CartItem>, total: int, itemCount: int)

  datatype CheckoutRequest = CheckoutRequest(email: string, phone: string, shippingAddress: string,
                                             paymentMethod: string)

  datatype CheckoutResponse = CheckoutResponse(orderId: string, total: int, message: string,
                                               estimatedDelivery: string)

  datatype CheckoutSummary = CheckoutSummary(items: seq<CartItem>, subtotal: int, shipping: int, tax: int,
                                             total: int, itemCount: int)

  /** A rejected API call: `error.response?.data?.detail` (absent without a response) and `error.message`. */
  datatype ApiError = ApiError(detail: Option<string>, message: string)

  /** `err?.response?.data?.detail || fallback`: the detail when it is a non-empty string. */
  function DetailOr(err: ApiError, fallback: string): string {
    if err.detail.Some? && err.detail.value != "" then err.detail.value else fallback
  }
}
