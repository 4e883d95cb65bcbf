/** The fare request made when the driver presses OKAY (`sendLocationToBackend`).
    The HTTP call itself is abstracted into the three ways it can end. */
module Quote {
  import opened Wrappers

  /** The JSON body of a quote response; its `price` member may be missing. */
  datatype QuoteBody = QuoteBody(price: Option<int>)

  /** How the `fetch` call ended: a response with `ok` set and its parsed
      body (`None` when the body is JSON `null`), a response without `ok`, or
      a thrown error (network or JSON parsing). */
  datatype FetchOutcome = Ok(body: Option<QuoteBody>) | NotOk | Failed

  /** The fare substituted whenever the call does not succeed. */
  const FallbackPrice: int := 50

  /** The body returned to the caller when the call does not succeed. */
  const Fallback: QuoteBody := QuoteBody(Some(FallbackPrice))

  /** What `sendLocationToBackend` resolves to: the body of a successful
      response, which may be `null`, otherwise the fallback body. It never rejects. */
  function QuoteFor(outcome: FetchOutcome): (r: Option<QuoteBody>)
    ensures outcome.Ok? ==> r == outcome.body
    ensures !outcome.Ok? ==> r == Some(Fallback) && r.value.price == Some(FallbackPrice)
    ensures r != Some(Fallback) ==> outcome.Ok?
    ensures r.None? || r.value.price.None? ==> outcome.Ok?
  {
    match outcome
    case Ok(body) => body
    case NotOk => Some(Fallback)
    case Failed => Some(Fallback)
  }
}
