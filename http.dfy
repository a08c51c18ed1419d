/** What the FastAPI handlers share: the session header guard and the text of a raised `HTTPException`. */
module Http {
  import opened Wrappers
  import opened Text

  /** The `session_id` header; absent is `None`. */
  type Header = Option<string>

  /** `if not session_id`: an absent or empty header is missing. */
  predicate HeaderMissing(h: Header) { h.None? || h.value == "" }

  const MissingSession := HttpError(400, "Missing session_id header")

  /** `str(exc)` of an `HTTPException`, which a broad `except Exception` wraps into a new detail. */
  function ExceptionText(e: HttpError): (t: string)
    ensures |t| > |e.detail|
    ensures t[|t| - |e.detail|..] == e.detail
  {
    IntToString(e.status) + ": " + e.detail
  }

  lemma StatusText400()
    ensures IntToString(400) == "400"
  {
    assert NatToString(4) == "4";
    assert NatToString(40) == "40";
  }

  lemma StatusText500()
    ensures IntToString(500) == "500"
  {
    assert NatToString(5) == "5";
    assert NatToString(50) == "50";
  }

  /** A 400 caught by a broad `except` resurfaces as a 500 whose detail reads `prefix + "400: " + detail`. */
  lemma Wrap500Of400(prefix: string, detail: string)
    ensures Wrap500(prefix, HttpError(400, detail)) == HttpError(500, prefix + "400: " + detail)
  {
    StatusText400();
  }

  /** A 500 caught by a broad `except` resurfaces as a 500 whose detail reads `prefix + "500: " + detail`. */
  lemma Wrap500Of500(prefix: string, detail: string)
    ensures Wrap500(prefix, HttpError(500, detail)) == HttpError(500, prefix + "500: " + detail)
  {
    StatusText500();
  }

  /** `HTTPException(status_code=500, detail=prefix + str(e))` raised for an exception `e` caught in a handler. */
  function Wrap500(prefix: string, e: HttpError): HttpError {
    HttpError(500, prefix + ExceptionText(e))
  }
}
