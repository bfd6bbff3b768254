/**
 * The HTTP surface of the core: the requests it sends through `requests`,
 * the responses that come back, and the JSON replies the Flask handlers give.
 * The network itself is a function from request to outcome, supplied by the caller.
 */
module Http {
  import opened Wrappers
  import opened Strings
  import opened Values

  /** A request as `requests.get/post/put/delete` sends it: query string or JSON body. */
  datatype Request =
    | Get(url: string, query: Fields)
    | Post(url: string, json: Fields)
    | Put(url: string, json: Fields)
    | Delete(url: string, query: Fields)

  /** What `response.json()` gives: the decoded document, or the decode error's message. */
  datatype Body = Parsed(doc: Value) | Malformed(message: string)

  datatype Response = Response(
    status: int,
    reason: string,
    contentType: Option<string>,
    text: string,
    body: Body)

  /** A response, or the exception `requests` raised (no connection, bad URL, timeout). */
  datatype Outcome = Answered(response: Response) | Failed(message: string)

  type Transport = Request -> Outcome

  /**
   * What a Flask handler gives back: a JSON body with a status code, or an
   * exception it did not catch (which Flask turns into its own 500 page).
   */
  datatype Reply = Json(status: int, body: Value) | Unhandled(error: PyError)

  /** `response.ok`: false exactly for the 4xx and 5xx codes `raise_for_status` rejects. */
  predicate ResponseOk(status: int) {
    !(400 <= status < 600)
  }

  /** `response.raise_for_status()`: the `HTTPError` for a 4xx or 5xx status. */
  function RaiseForStatus(r: Response, url: string): (e: Option<PyError>)
    ensures e.None? <==> ResponseOk(r.status)
  {
    if 400 <= r.status < 500 then
      Some(Raised(IntToString(r.status) + " Client Error: " + r.reason + " for url: " + url))
    else if 500 <= r.status < 600 then
      Some(Raised(IntToString(r.status) + " Server Error: " + r.reason + " for url: " + url))
    else None
  }

  /** `response.json()`. */
  function DecodeJson(r: Response): (v: Py<Value>)
    ensures v.Ok? <==> r.body.Parsed?
    ensures v.Ok? ==> v.value == r.body.doc
  {
    match r.body
    case Parsed(doc) => Ok(doc)
    case Malformed(m) => Err(Raised(m))
  }

  /** `{'error': message}`. */
  function ErrorBody(message: string): Value {
    Obj([(KStr("error"), Str(message))])
  }
}
