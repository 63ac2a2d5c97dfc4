/** The client's API layer (frontend/src/lib/api.js): the request each call
    sends and the mapping from an HTTP response to the value the call returns
    or the error it throws. `fetch` itself is replaced by the response it
    delivers. */
module Api {
  import opened Wrappers

  /** The three JSON endpoints the pages call. */
  datatype Endpoint = Summarize | Clauses | Qa

  /** The path each call posts to, after the API base URL. */
  function PathOf(e: Endpoint): string {
    match e
    case Summarize => "/summarize"
    case Clauses => "/clauses"
    case Qa => "/qa"
  }

  /** The message of the thrown error when the body gives no `detail`. */
  function DefaultDetail(e: Endpoint): (r: string)
    ensures r != ""
  {
    match e
    case Summarize => "Summarize failed"
    case Clauses => "Clauses failed"
    case Qa => "QA failed"
  }

  /** The `language` a call sends when the caller passes none. */
  const DefaultLanguage: string := "en"

  /** The JSON body of a call: `doc_id` and `language`, and `question` for `ask`. */
  datatype Request = Request(endpoint: Endpoint, docId: string, question: Option<string>, language: string)

  /** A response body as `res.json()` sees it: parsed JSON (read as the
      payload the page expects, together with its `detail` field), or text
      that is not JSON, with the parser's message. */
  datatype Body<T> = Json(data: T, detail: Option<string>) | NotJson(reason: string)

  /** What `fetch` delivers: a response, or a rejection (no connection) with its message. */
  datatype Response<T> = Response(status: int, body: Body<T>) | NetworkError(reason: string)

  /** What a call produces: the parsed body, or the thrown error with its
      `status` (absent unless the server answered with a non-ok status) and `message`. */
  datatype ApiResult<T> = Ok(data: T) | Err(status: Option<int>, message: string)

  /** `res.ok`. */
  predicate IsOk(status: int) {
    200 <= status <= 299
  }

  /** `j.detail || detail` inside its `try`: the body's non-empty `detail`,
      else the endpoint default, also when the body is not JSON. */
  function ErrorDetail<T>(e: Endpoint, body: Body<T>): (r: string)
    ensures r != ""
    ensures body.Json? && body.detail.Some? && body.detail.value != "" ==> r == body.detail.value
    ensures !(body.Json? && body.detail.Some? && body.detail.value != "") ==> r == DefaultDetail(e)
  {
    match body
    case Json(_, Some(d)) => if d != "" then d else DefaultDetail(e)
    case _ => DefaultDetail(e)
  }

  /** The outcome of `summarize`, `explainClauses` or `ask` for one response. */
  function Normalize<T>(e: Endpoint, res: Response<T>): (r: ApiResult<T>)
    ensures r.Ok? <==> res.Response? && IsOk(res.status) && res.body.Json?
    ensures r.Ok? ==> r.data == res.body.data
    ensures res.Response? && !IsOk(res.status) ==> r.Err? && r.status == Some(res.status)
  {
    match res
    case NetworkError(reason) => Err(None, reason)
    case Response(status, body) =>
      if !IsOk(status) then Err(Some(status), ErrorDetail(e, body))
      else
        match body
        case Json(data, _) => Ok(data)
        case NotJson(reason) => Err(None, reason)
  }

  /** A thrown error carries a status exactly when the server answered with a
      non-ok one, and then its message is never empty. */
  lemma ErrorStatusIsHttpStatus<T>(e: Endpoint, res: Response<T>)
    ensures var r := Normalize(e, res);
            r.Err? && r.status.Some? <==> res.Response? && !IsOk(res.status)
    ensures var r := Normalize(e, res);
            r.Err? && r.status.Some? ==> r.message == ErrorDetail(e, res.body) && r.message != ""
  {
  }

  /** An error response whose body cannot be parsed is reported with the
      endpoint default, not as a parse failure. */
  lemma UnparseableErrorBody<T>(e: Endpoint, status: int, reason: string)
    requires !IsOk(status)
    ensures Normalize<T>(e, Response(status, NotJson(reason))) == Err(Some(status), DefaultDetail(e))
  {
  }
}
