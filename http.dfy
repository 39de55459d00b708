/**
 * Requests the app sends, the replies the backend gives, and the errors a
 * call can throw.
 */
module Http {
  import opened Wrappers
  import opened JsonModel

  /** `BASE_URL` of the app's configuration, or the loopback address `http://127.0.0.1:8000` the nurse navigation bar hard-codes. */
  datatype Origin = ApiBase | Loopback

  /** What `fetch` is asked to send: the body is the value given to `JSON.stringify`. */
  datatype Request = Request(origin: Origin, path: string, verb: string, headers: map<string, string>, body: Option<Json>)

  /** The `options` argument of the authenticated clients; `verb` is its `method`, "GET" when omitted. */
  datatype Options = Options(verb: string, headers: map<string, string>, body: Option<Json>)

  datatype Response = Response(status: int, body: Body)

  /** What `fetch` yields: a response, or a rejection because the server cannot be reached. */
  datatype Reply = Delivered(response: Response) | Unreachable

  /** `response.ok`. */
  predicate Ok(status: int) {
    200 <= status <= 299
  }

  /** Errors a call can throw. */
  datatype JsError =
    | NoTokens                                        // 'No authentication tokens found.'
    | SessionExpired                                  // 'Session expired.'
    | NetworkFailure                                  // fetch rejected
    | TypeError                                       // a property read of null, or a call of something undefined
    | SyntaxError                                     // response.json() on a body that is not JSON
    | Failed(message: string)                         // new Error(message)
    | RequestFailed(message: string, status: int, data: Json)  // getJSON's error with status and body

  datatype Outcome<T> = Done(value: T) | Threw(error: JsError)

  /** `error.message`. */
  function Message(e: JsError): string {
    match e
    case NoTokens => "No authentication tokens found."
    case SessionExpired => "Session expired."
    case NetworkFailure => "Network request failed"
    case TypeError => "TypeError"
    case SyntaxError => "JSON Parse error"
    case Failed(m) => m
    case RequestFailed(m, _, _) => m
  }

  /** `{ 'Content-Type': 'application/json' }`. */
  function JsonHeaders(): map<string, string> {
    map["Content-Type" := "application/json"]
  }

  /** `{ 'Content-Type': 'application/json', Authorization: 'Bearer ' + token }`. */
  function BearerHeaders(token: string): map<string, string> {
    map["Content-Type" := "application/json", "Authorization" := "Bearer " + token]
  }

  /** `await response.json()`. */
  function ParseBody(r: Response): Outcome<Json> {
    if r.body.Encoded? then Done(r.body.value) else Threw(SyntaxError)
  }
}
