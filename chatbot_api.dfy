/**
 * The `/chatbot/chat` endpoint: two guards raised before the `try`, then the
 * service reply split into `response`, `intent` and the remaining keys as
 * `metadata`.
 */
module ChatbotApi {
  import opened Wrappers
  import opened Text
  import opened Catalog
  import opened CartLines
  import opened CartService
  import opened ChatbotIntent
  import opened ChatbotService
  import opened Http

  /** The keys of the service's reply dictionary. */
  datatype Key =
    | ResponseKey
    | IntentKey
    | CartKey
    | ProductKey
    | AddedProductsKey
    | FailedProductsKey
    | CheckoutReadyKey
    | ResultsKey

  /** The key as it is spelled in the dictionary. */
  function KeyName(k: Key): string {
    match k
    case ResponseKey => "response"
    case IntentKey => "intent"
    case CartKey => "cart"
    case ProductKey => "product"
    case AddedProductsKey => "added_products"
    case FailedProductsKey => "failed_products"
    case CheckoutReadyKey => "checkout_ready"
    case ResultsKey => "results"
  }

  const AllKeys: set<Key> :=
    {ResponseKey, IntentKey, CartKey, ProductKey, AddedProductsKey, FailedProductsKey, CheckoutReadyKey, ResultsKey}

  datatype Value =
    | Str(text: string)
    | CartV(cart: CartView)
    | ProductV(product: Product)
    | ProductsV(products: seq<Product>)
    | IdsV(ids: seq<string>)
    | Flag(flag: bool)
    | ResultsV(results: seq<map<string, string>>)

  /** The value the reply dictionary holds under `k`, or `None` when the key is absent. */
  function Field(r: Reply, k: Key): Option<Value> {
    match k
    case ResponseKey => Some(Str(r.response))
    case IntentKey => Some(Str(r.intent))
    case CartKey => if r.cart.Some? then Some(CartV(r.cart.value)) else None
    case ProductKey => if r.product.Some? then Some(ProductV(r.product.value)) else None
    case AddedProductsKey => if r.addedProducts.Some? then Some(ProductsV(r.addedProducts.value)) else None
    case FailedProductsKey => if r.failedProducts.Some? then Some(IdsV(r.failedProducts.value)) else None
    case CheckoutReadyKey => if r.checkoutReady.Some? then Some(Flag(r.checkoutReady.value)) else None
    case ResultsKey => if r.results.Some? then Some(ResultsV(r.results.value)) else None
  }

  datatype ChatResponse = ChatResponse(response: string, intent: string, metadata: map<Key, Value>)

  /** `{k: v for k, v in response.items() if k not in ['response', 'intent']}`. */
  function Metadata(r: Reply): (m: map<Key, Value>)
    ensures ResponseKey !in m && IntentKey !in m
    ensures forall k :: k in m <==> k != ResponseKey && k != IntentKey && Field(r, k).Some?
    ensures forall k :: k in m ==> Field(r, k) == Some(m[k])
  {
    map k | k in AllKeys && k != ResponseKey && k != IntentKey && Field(r, k).Some? :: Field(r, k).value
  }

  const BlankMessage := HttpError(400, "Pls provide a message")

  const NoReplyDetail := "Chatbot failed to process the message"

  /**
   * `chat` given what `process_message` returned: the guards, then the
   * `None` check inside the `try`, whose 500 the broad `except` wraps again.
   */
  function Chat(h: Header, message: string, reply: Option<Reply>): Result<ChatResponse, HttpError> {
    if HeaderMissing(h) then Failure(MissingSession)
    else if StripPy(message) == "" then Failure(BlankMessage)
    else match reply
      case None => Failure(Wrap500("Chatbot error: ", HttpError(500, NoReplyDetail)))
      case Some(r) => Success(ChatResponse(r.response, r.intent, Metadata(r)))
  }

  /** The guards answer 400 before the service is reached: a missing header first, then a blank message. */
  lemma ChatGuards(h: Header, message: string, reply: Option<Reply>)
    ensures HeaderMissing(h) ==> Chat(h, message, reply) == Failure(HttpError(400, "Missing session_id header"))
    ensures !HeaderMissing(h) && AllPySpace(message) ==>
      Chat(h, message, reply) == Failure(HttpError(400, "Pls provide a message"))
  {
  }

  /** A `None` reply surfaces as a 500 whose detail embeds the inner 500. */
  lemma ChatNoReply(s: string, message: string)
    requires s != "" && !AllPySpace(message)
    ensures Chat(Some(s), message, None)
      == Failure(HttpError(500, "Chatbot error: " + "500: " + NoReplyDetail))
  {
    Wrap500Of500("Chatbot error: ", NoReplyDetail);
  }

  /** A reply passes through: response and intent verbatim, every other present key in `metadata`. */
  lemma ChatCopiesReply(s: string, message: string, r: Reply)
    requires s != "" && !AllPySpace(message)
    ensures var c := Chat(Some(s), message, Some(r));
      c.Success? && c.value.response == r.response && c.value.intent == r.intent
      && forall k :: k in c.value.metadata <==> k !in {ResponseKey, IntentKey} && Field(r, k).Some?
  {
  }

  /** A bare `{response, intent}` reply has an empty `metadata`. */
  lemma BasicReplyNoMetadata(response: string, intent: string)
    ensures Metadata(Basic(response, intent)) == map[]
  {
    var m := Metadata(Basic(response, intent));
    assert forall k :: k !in m;
  }

  /** `chat` over the live store: the service runs only once both guards pass. */
  function ChatResult(carts: map<string, Lines>, h: Header, message: string, p: Patterns, catalog: seq<Product>,
                      search: string -> Reply): (Result<ChatResponse, HttpError>, map<string, Lines>)
  {
    if HeaderMissing(h) || StripPy(message) == "" then (Chat(h, message, None), carts)
    else
      var (r, after) := ProcessResult(carts, message, h.value, p, catalog, search);
      (Chat(h, message, Some(r)), after)
  }

  /** Rejected requests never reach the service, so the store is unchanged. */
  lemma GuardsLeaveStore(carts: map<string, Lines>, h: Header, message: string, p: Patterns, catalog: seq<Product>,
                         search: string -> Reply)
    requires HeaderMissing(h) || AllPySpace(message)
    ensures ChatResult(carts, h, message, p, catalog, search).1 == carts
    ensures ChatResult(carts, h, message, p, catalog, search).0.Failure?
    ensures ChatResult(carts, h, message, p, catalog, search).0.error.status == 400
  {
  }

  method ChatEndpoint(store: CartStore, h: Header, message: string, p: Patterns, catalog: seq<Product>,
                      search: string -> Reply) returns (r: Result<ChatResponse, HttpError>)
    modifies store
    ensures (r, store.carts) == ChatResult(old(store.carts), h, message, p, catalog, search)
  {
    if HeaderMissing(h) {
      return Failure(MissingSession);
    }
    if StripPy(message) == "" {
      return Failure(BlankMessage);
    }
    var reply := ProcessMessage(store, message, h.value, p, catalog, search);
    r := Chat(h, message, Some(reply));
  }
}
