/**
 * The one HTTP gateway every store goes through (`request` in src/services/api.js).
 *
 * `fetch` itself is not modelled: the caller passes the transport's answer as an
 * `Outcome`, and the gateway's rules (which headers, which body, which URL, and how
 * an answer becomes a value or an error) are stated about the call it builds and
 * the result it returns.
 */
module Api {
  import opened Wrappers

  /** JSON values as they travel in bodies (numbers are integers in this model). */
  datatype Json =
    | Null
    | Bool(b: bool)
    | Num(n: int)
    | Str(s: string)
    | Arr(items: seq<Json>)
    | Obj(fields: map<string, Json>)

  /** The HTTP verbs the stores use; `method === 'POST'` is the only verb test the gateway makes. */
  datatype Verb = Get | Post | Put | Delete

  /**
   * What the transport produced for one call: a rejected `fetch`, or a response with its
   * `ok` flag, its body read as text, and its body read as JSON (or the parse error).
   */
  datatype Outcome<T> =
    | NetworkFailure(message: string)
    | Response(ok: bool, text: string, parsed: Result<T>)

  /**
   * The call handed to `fetch`. A body `Some(b)` stands for the string `JSON.stringify(b)`;
   * `None` means the `body` parameter is `undefined` and nothing is sent.
   */
  datatype Call<B> = Call(verb: Verb, url: string, headers: map<string, string>, body: Option<B>)

  const ContentType := "Content-Type"
  const Accept := "Accept"
  const Authorization := "Authorization"
  const JsonMime := "application/json"
  const BearerPrefix := "Bearer "
  /** The message of a non-ok response whose body text is empty. */
  const ServerError := "Server error"

  /** JavaScript truthiness of `store.token`: `null`, `undefined` and `''` are falsy. */
  predicate Truthy(token: Option<string>) {
    token.Some? && token.value != ""
  }

  /** The credential carried by an `Authorization` header value, if it is a bearer one. */
  function BearerCredential(value: string): Option<string> {
    if |BearerPrefix| <= |value| && value[..|BearerPrefix|] == BearerPrefix
    then Some(value[|BearerPrefix|..])
    else None
  }

  /**
   * The headers sent for a store whose token is `token`: both JSON headers always, and a
   * bearer `Authorization` header carrying exactly that token when, and only when, it is truthy.
   */
  predicate HeadersFor(headers: map<string, string>, token: Option<string>) {
    && headers.Keys == {ContentType, Accept} + (if Truthy(token) then {Authorization} else {})
    && headers[ContentType] == JsonMime
    && headers[Accept] == JsonMime
    && (Truthy(token) ==> BearerCredential(headers[Authorization]) == Some(token.value)
                          && headers[Authorization] == BearerPrefix + token.value)
  }

  /** What `body: method === 'POST' ? JSON.stringify(body) : undefined` sends. */
  function SentBody<B>(verb: Verb, body: Option<B>): (sent: Option<B>)
    ensures sent.Some? <==> verb == Post && body.Some?
    ensures sent.Some? ==> sent == body
  {
    if verb == Post then body else None
  }

  /**
   * The promise chain after `fetch`: an ok response resolves to its parsed JSON, a non-ok one
   * fails with its text (or "Server error" when that is empty), and a network failure keeps
   * its own message.
   */
  function Classify<T>(outcome: Outcome<T>): (r: Result<T>)
    ensures r.Ok? <==> outcome.Response? && outcome.ok && outcome.parsed.Ok?
    ensures r.Ok? ==> r.value == outcome.parsed.value
    ensures outcome.NetworkFailure? ==> r == Err(outcome.message)
    ensures outcome.Response? && !outcome.ok ==>
              r.Err? && r.message != "" &&
              r.message == (if outcome.text == "" then ServerError else outcome.text)
    ensures outcome.Response? && outcome.ok && outcome.parsed.Err? ==> r == outcome.parsed
  {
    match outcome
    case NetworkFailure(msg) => Err(msg)
    case Response(ok, text, parsed) =>
      if !ok then Err(if text == "" then ServerError else text)
      else parsed
  }

  /**
   * `request(method, route, store, body)`: builds the headers (extending the JSON pair with
   * the bearer header when `store.token` is truthy), the body and the URL, classifies the
   * transport's outcome, and on any failure emits one error notification whose text is the
   * error's message before re-raising that same error.
   */
  method Request<B, T>(baseUrl: string, verb: Verb, route: string, token: Option<string>,
                       body: Option<B>, outcome: Outcome<T>)
    returns (call: Call<B>, r: Result<T>, notice: Option<string>)
    ensures call.verb == verb
    ensures call.url == baseUrl + route
    ensures HeadersFor(call.headers, token)
    ensures call.body.Some? <==> verb == Post && body.Some?
    ensures call.body.Some? ==> call.body == body
    ensures r == Classify(outcome)
    ensures notice.Some? <==> r.Err?
    ensures r.Err? ==> notice == Some(r.message)
  {
    var headers := map[ContentType := JsonMime, Accept := JsonMime];
    if Truthy(token) {
      headers := headers[Authorization := BearerPrefix + token.value];
    }
    call := Call(verb, baseUrl + route, headers, SentBody(verb, body));
    r := Classify(outcome);
    notice := if r.Err? then Some(r.message) else None;
  }
}
