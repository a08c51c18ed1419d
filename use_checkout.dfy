/**
 * The checkout page's state container. Each asynchronous request is one
 * atomic step whose outcome is an input: the summary or order the server
 * sent back, or the rejected request.
 */
module UseCheckout {
  import opened Wrappers
  import opened Text
  import opened ClientTypes
  import CheckoutClient

  const SummaryFallback := "Failed to fetch checkout summary"
  const ErrorSeparator := ", "

  datatype CheckoutState = CheckoutState(summary: Option<CheckoutSummary>, loading: bool, error: Option<string>,
                                         orderResponse: Option<CheckoutResponse>)

  const Initial := CheckoutState(None, false, None, None)

  /** `fetchSummary`: the summary replaces the old one, or the old one stays and the error is set. */
  function FetchSummarySpec(st: CheckoutState, outcome: Result<CheckoutSummary, ApiError>): (r: CheckoutState)
    ensures !r.loading && r.orderResponse == st.orderResponse
    ensures outcome.Success? ==> r.summary == Some(outcome.value) && r.error.None?
    ensures outcome.Failure? ==> r.summary == st.summary && r.error.Some? && r.error.value != ""
  {
    match outcome
    case Success(s) => st.(summary := Some(s), loading := false, error := None)
    case Failure(err) => st.(loading := false, error := Some(DetailOr(err, SummaryFallback)))
  }

  /**
   * `processCheckout`: the form is validated first; an invalid form only
   * reports its errors. Otherwise the order request is made through
   * `checkoutApi.process`, whose failure is a plain error.
   */
  function ProcessCheckoutSpec(st: CheckoutState, data: CheckoutRequest, outcome: Result<CheckoutResponse, ApiError>)
    : (r: (bool, CheckoutState))
    ensures r.0 <==> CheckoutClient.ValidateCheckout(data).valid && outcome.Success?
    ensures r.1.summary == st.summary
  {
    var validation := CheckoutClient.ValidateCheckout(data);
    if !validation.valid then
      (false, st.(error := Some(Join(validation.errors, ErrorSeparator))))
    else
      match CheckoutClient.Process(outcome)
      case Success(resp) => (true, st.(loading := false, error := None, orderResponse := Some(resp)))
      case Failure(err) => (false, st.(loading := false, error := Some(DetailOr(err, CheckoutClient.ProcessFallback))))
  }

  function ResetCheckoutSpec(st: CheckoutState): (r: CheckoutState)
    ensures r.summary.None? && r.orderResponse.None? && r.error.None?
    ensures r.loading == st.loading
  {
    st.(summary := None, orderResponse := None, error := None)
  }

  /** An invalid form makes no request: the outcome has no influence, and loading is untouched. */
  lemma InvalidFormSendsNothing(st: CheckoutState, data: CheckoutRequest, o1: Result<CheckoutResponse, ApiError>,
                                o2: Result<CheckoutResponse, ApiError>)
    requires !CheckoutClient.ValidateCheckout(data).valid
    ensures ProcessCheckoutSpec(st, data, o1) == ProcessCheckoutSpec(st, data, o2)
    ensures ProcessCheckoutSpec(st, data, o1).1
            == st.(error := Some(Join(CheckoutClient.ValidateCheckout(data).errors, ErrorSeparator)))
  {
  }

  /** A join whose first part is non-empty is non-empty. */
  lemma JoinNonEmpty(parts: seq<string>)
    requires parts != [] && parts[0] != ""
    ensures Join(parts, ErrorSeparator) != ""
  {
    if |parts| > 1 {
      assert (parts[0] + ErrorSeparator + Join(parts[1..], ErrorSeparator))[0] == parts[0][0];
    }
  }

  /** A form the validator rejects leaves a non-empty error behind. */
  lemma InvalidFormShowsErrors(st: CheckoutState, data: CheckoutRequest, outcome: Result<CheckoutResponse, ApiError>)
    requires !CheckoutClient.ValidateCheckout(data).valid
    ensures ProcessCheckoutSpec(st, data, outcome).1.error.Some?
    ensures ProcessCheckoutSpec(st, data, outcome).1.error.value != ""
  {
    var errors := CheckoutClient.ValidateCheckout(data).errors;
    assert errors[0] in [CheckoutClient.EmailMessage, CheckoutClient.PhoneMessage, CheckoutClient.AddressMessage,
                         CheckoutClient.PaymentMessage];
    JoinNonEmpty(errors);
  }

  /** An accepted order is stored, the error is cleared and loading ends. */
  lemma AcceptedOrderStored(st: CheckoutState, data: CheckoutRequest, resp: CheckoutResponse)
    requires CheckoutClient.ValidateCheckout(data).valid
    ensures ProcessCheckoutSpec(st, data, Success(resp))
            == (true, st.(loading := false, error := None, orderResponse := Some(resp)))
  {
  }

  /**
   * A rejected order always shows the generic message: `process` rethrows an
   * error without a response, so the server's detail never reaches the page.
   */
  lemma RejectedOrderShowsFallback(st: CheckoutState, data: CheckoutRequest, err: ApiError)
    requires CheckoutClient.ValidateCheckout(data).valid
    ensures ProcessCheckoutSpec(st, data, Failure(err))
            == (false, st.(loading := false, error := Some(CheckoutClient.ProcessFallback)))
  {
    CheckoutClient.ProcessDropsDetail(Failure(err), CheckoutClient.ProcessFallback);
  }

  /** Every request that reaches the network ends with loading false. */
  lemma NetworkedStepsEndIdle(st: CheckoutState, data: CheckoutRequest, order: Result<CheckoutResponse, ApiError>,
                              summary: Result<CheckoutSummary, ApiError>)
    ensures !FetchSummarySpec(st, summary).loading
    ensures CheckoutClient.ValidateCheckout(data).valid ==> !ProcessCheckoutSpec(st, data, order).1.loading
  {
  }

  class CheckoutHook {
    var summary: Option<CheckoutSummary>
    var loading: bool
    var error: Option<string>
    var orderResponse: Option<CheckoutResponse>

    function Snapshot(): CheckoutState
      reads this
    {
      CheckoutState(summary, loading, error, orderResponse)
    }

    constructor ()
      ensures Snapshot() == Initial
    {
      summary := None;
      loading := false;
      error := None;
      orderResponse := None;
    }

    method FetchSummary(outcome: Result<CheckoutSummary, ApiError>)
      modifies this
      ensures Snapshot() == FetchSummarySpec(old(Snapshot()), outcome)
    {
      loading := true;
      error := None;
      match outcome {
        case Success(s) =>
          summary := Some(s);
        case Failure(err) =>
          error := Some(DetailOr(err, SummaryFallback));
      }
      loading := false;
    }

    method ProcessCheckout(data: CheckoutRequest, outcome: Result<CheckoutResponse, ApiError>) returns (ok: bool)
      modifies this
      ensures (ok, Snapshot()) == ProcessCheckoutSpec(old(Snapshot()), data, outcome)
    {
      var validation := CheckoutClient.ValidateCheckout(data);
      if !validation.valid {
        error := Some(Join(validation.errors, ErrorSeparator));
        return false;
      }
      loading := true;
      error := None;
      var response := CheckoutClient.Process(outcome);
      match response {
        case Success(resp) =>
          orderResponse := Some(resp);
          ok := true;
        case Failure(err) =>
          error := Some(DetailOr(err, CheckoutClient.ProcessFallback));
          ok := false;
      }
      loading := false;
    }

    method ResetCheckout()
      modifies this
      ensures Snapshot() == ResetCheckoutSpec(old(Snapshot()))
    {
      summary := None;
      orderResponse := None;
      error := None;
    }
  }
}
