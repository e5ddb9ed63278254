/**
 The slice of `net/http` the handlers of main.go touch, as plain values: the
 request method, the parsed query string, the raw body, the status codes and
 the decoded JSON value a body may carry. Sockets, headers and the encoder are
 not modelled.
 */
module Http {

  /** An optional value: a decoder either yields a value or fails. */
  datatype Option<+T> = None | Some(value: T)

  /** Status codes the handlers answer with. */
  const StatusOK: int := 200
  const StatusBadRequest: int := 400
  const StatusMethodNotAllowed: int := 405

  /** The request method the user-details handler insists on (`http.MethodPost`). */
  const MethodPost: string := "POST"

  /** A parsed query string: every key maps to its values, in the order
      they appeared in the URL (Go's `url.Values`). */
  type Query = map<string, seq<string>>

  /** `url.Values.Get`: the first value of `key`, or the empty string when the
      key is absent or carries no value. An absent parameter and a parameter
      given as `key=` therefore read the same. */
  function QueryGet(query: Query, key: string): (v: string)
    ensures key !in query ==> v == ""
    ensures key in query && |query[key]| == 0 ==> v == ""
    ensures key in query && |query[key]| > 0 ==> v == query[key][0]
    ensures v != "" ==> key in query && |query[key]| > 0 && v == query[key][0]
  {
    if key in query && |query[key]| > 0 then query[key][0] else ""
  }

  /** Repeating a parameter keeps its first value: later values never win,
      and parameters under other keys do not interfere. */
  lemma QueryGetFirstWins(query: Query, key: string, first: string, later: seq<string>, other: string)
    requires other != key
    ensures QueryGet(query[key := [first] + later], key) == first
    ensures QueryGet(query[key := [first] + later], other) == QueryGet(query, other)
  {
  }

  /** An incoming request as the handlers see it. */
  datatype Request = Request(verb: string, query: Query, body: string)

  /** A decoded JSON value of arbitrary shape. Numbers keep their literal
      text: the decoder's conversion to floating point is not modelled. */
  datatype Json =
    | Null
    | Bool(b: bool)
    | Number(literal: string)
    | Str(s: string)
    | Array(items: seq<Json>)
    | Object(fields: map<string, Json>)

  /** A JSON object, the shape the user-details handler decodes its body into. */
  type JsonObject = map<string, Json>

  /** A body decoder: the object a body decodes to, or `None` when it is not
      a well-formed JSON object. Its implementation belongs to the standard
      library and is a parameter of the model. */
  type Decoder = string -> Option<JsonObject>
}
