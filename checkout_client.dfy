/**
 * The client's checkout API wrapper: the form validation run before an order
 * is sent, and the rewriting of a failed order request into a plain error
 * whose message is the most specific text available.
 */
module CheckoutClient {
  import opened Wrappers
  import opened Text
  import opened ClientTypes
  import Seqs

  const EmailMessage := "Valid email is required"
  const PhoneMessage := "Valid phone number is required (minimum 10 digits)"
  const AddressMessage := "Valid shipping address is required (minimum 10 characters)"
  const PaymentMessage := "Payment method is required"
  const ProcessFallback := "Failed to process checkout"

  /** The minimum trimmed length of the phone number and of the shipping address. */
  const MinLength := 10

  /** A character of the class `[^\s@]`. */
  predicate EmailChar(c: char) { c != '@' && !IsJsSpace(c) }

  /**
   * The language of `^[^\s@]+@[^\s@]+\.[^\s@]+$`: one '@' after a non-empty
   * local part, then a '.' with at least one character on either side of it,
   * and no other '@' and no whitespace anywhere.
   */
  ghost predicate MatchesEmailPattern(e: string) {
    exists i, d :: 0 < i && i + 1 < d && d + 1 < |e| && e[i] == '@' && e[d] == '.'
                   && forall k :: 0 <= k < |e| && k != i ==> EmailChar(e[k])
  }

  /** The pattern test computed: split at the first '@' and look for an inner '.' in the domain. */
  predicate EmailOk(e: string) {
    '@' in e &&
    var i := Seqs.FirstIndex(e, '@');
    0 < i && i + 3 <= |e| && '.' in e[i + 2..|e| - 1]
    && forall k :: 0 <= k < |e| && k != i ==> EmailChar(e[k])
  }

  /** The computed test accepts exactly the strings the regular expression matches. */
  lemma EmailOkIff(e: string)
    ensures EmailOk(e) <==> MatchesEmailPattern(e)
  {
    if EmailOk(e) {
      var i := Seqs.FirstIndex(e, '@');
      var dom := e[i + 2..|e| - 1];
      var j :| 0 <= j < |dom| && dom[j] == '.';
      assert e[i + 2 + j] == '.';
      assert 0 < i && i + 1 < i + 2 + j && i + 2 + j + 1 < |e|;
    }
    if MatchesEmailPattern(e) {
      var i, d :| 0 < i && i + 1 < d && d + 1 < |e| && e[i] == '@' && e[d] == '.'
                  && forall k :: 0 <= k < |e| && k != i ==> EmailChar(e[k]);
      assert '@' in e;
      assert Seqs.FirstIndex(e, '@') == i;
      assert e[i + 2..|e| - 1][d - (i + 2)] == '.';
    }
  }

  predicate EmailFails(data: CheckoutRequest) { data.email == "" || !EmailOk(data.email) }

  /** `!value || value.trim().length < 10`; the length counts UTF-16 code units. */
  predicate TooShort(value: string) { value == "" || Utf16Length(TrimJs(value)) < MinLength }

  predicate PhoneFails(data: CheckoutRequest) { TooShort(data.phone) }

  predicate AddressFails(data: CheckoutRequest) { TooShort(data.shippingAddress) }

  predicate PaymentFails(data: CheckoutRequest) { data.paymentMethod == "" }

  datatype Validation = Validation(valid: bool, errors: seq<string>)

  /** The four checks in their fixed order; the form is valid when none fails. */
  function ValidateCheckout(data: CheckoutRequest): (v: Validation)
    ensures v.valid <==> v.errors == []
    ensures EmailMessage in v.errors <==> EmailFails(data)
    ensures PhoneMessage in v.errors <==> PhoneFails(data)
    ensures AddressMessage in v.errors <==> AddressFails(data)
    ensures PaymentMessage in v.errors <==> PaymentFails(data)
  {
    var errors := (if EmailFails(data) then [EmailMessage] else [])
                  + ((if PhoneFails(data) then [PhoneMessage] else [])
                     + ((if AddressFails(data) then [AddressMessage] else [])
                        + (if PaymentFails(data) then [PaymentMessage] else [])));
    Validation(|errors| == 0, errors)
  }

  /** The reported errors are the failing checks, in the order the form lists its fields. */
  lemma ErrorsInFieldOrder(data: CheckoutRequest)
    ensures Seqs.IsSubsequence(ValidateCheckout(data).errors,
                               [EmailMessage, PhoneMessage, AddressMessage, PaymentMessage])
  {
    var payment := if PaymentFails(data) then [PaymentMessage] else [];
    assert payment + [] == payment;
    Seqs.OptionalHead(PaymentFails(data), PaymentMessage, [], []);
    Seqs.OptionalHead(AddressFails(data), AddressMessage, payment, [PaymentMessage]);
    var address := (if AddressFails(data) then [AddressMessage] else []) + payment;
    Seqs.OptionalHead(PhoneFails(data), PhoneMessage, address, [AddressMessage, PaymentMessage]);
    var phone := (if PhoneFails(data) then [PhoneMessage] else []) + address;
    Seqs.OptionalHead(EmailFails(data), EmailMessage, phone, [PhoneMessage, AddressMessage, PaymentMessage]);
  }

  /** A valid form has an address matching the pattern and a phone and address of ten trimmed units. */
  lemma ValidFormMeetsEveryRule(data: CheckoutRequest)
    requires ValidateCheckout(data).valid
    ensures MatchesEmailPattern(data.email)
    ensures Utf16Length(TrimJs(data.phone)) >= MinLength
    ensures Utf16Length(TrimJs(data.shippingAddress)) >= MinLength
    ensures data.paymentMethod != ""
  {
    EmailOkIff(data.email);
  }

  /** Whitespace is trimmed before the length is counted: a blank phone number never passes. */
  lemma BlankPhoneRejected(data: CheckoutRequest)
    requires AllJsSpace(data.phone)
    ensures PhoneMessage in ValidateCheckout(data).errors
  {
  }

  /** The phone rule counts characters, not digits: ten letters pass it. */
  lemma PhoneDigitsNotChecked(data: CheckoutRequest)
    requires data.phone == "abcdefghij"
    ensures PhoneMessage !in ValidateCheckout(data).errors
  {
    assert TrimJs(data.phone) == data.phone;
    Utf16LengthOfBmp(data.phone);
  }

  /** The message of the error `process` throws: the server's detail, else the transport message, else a fallback. */
  function ProcessErrorMessage(err: ApiError): (m: string)
    ensures m != ""
    ensures err.detail.Some? && err.detail.value != "" ==> m == err.detail.value
    ensures (err.detail.None? || err.detail.value == "") && err.message != "" ==> m == err.message
  {
    if err.detail.Some? && err.detail.value != "" then err.detail.value
    else if err.message != "" then err.message
    else ProcessFallback
  }

  /**
   * `checkoutApi.process`: the order request's outcome, with a rejection
   * replaced by a plain `Error`, which carries a message and no response.
   */
  function Process(outcome: Result<CheckoutResponse, ApiError>): (r: Result<CheckoutResponse, ApiError>)
    ensures outcome.Success? ==> r == outcome
    ensures outcome.Failure? ==> r.Failure? && r.error.detail.None? && r.error.message != ""
  {
    match outcome
    case Success(resp) => Success(resp)
    case Failure(err) => Failure(ApiError(None, ProcessErrorMessage(err)))
  }

  /** Whatever the server said, the detail a caller of `process` can read is gone. */
  lemma ProcessDropsDetail(outcome: Result<CheckoutResponse, ApiError>, fallback: string)
    requires outcome.Failure?
    ensures DetailOr(Process(outcome).error, fallback) == fallback
  {
  }
}
