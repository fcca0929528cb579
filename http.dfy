/**
 * The values that cross the HTTP client boundary: what a failed request throws,
 * the application envelope a backend returns, a request configuration whose
 * headers an interceptor edits in place, and the bearer credentials of
 * section 2.1 of RFC 6750.
 */
module Http {
  import opened Wrappers

  /**
   * The `response` of a failed request: its HTTP status (absent when the server
   * sent none), the `message` and `msg` of its JSON body, and its status text.
   * An absent string is the empty string.
   */
  datatype ErrorResponse = ErrorResponse(status: Option<nat>, dataMessage: string, dataMsg: string, statusText: string)

  /**
   * A thrown or rejected value: `undefined`, `null`, another primitive, or an
   * object — an `Error` instance (an axios error is one) or a plain object — with
   * its `message`, its `response` and whether a `request` was made.
   */
  datatype Thrown =
    | Undefined
    | Null
    | Primitive
    | Obj(isError: bool, message: string, response: Option<ErrorResponse>, request: bool)

  /** `new Error(message)`. */
  function NewError(message: string): (e: Thrown)
    ensures e.Obj? && e.isError && e.message == message && e.response.None?
  {
    Obj(true, message, None, false)
  }

  /** JavaScript truthiness of a `number | undefined`. */
  predicate StatusTruthy(status: Option<nat>) {
    status.Some? && status.value != 0
  }

  /**
   * The application envelope `{code, msg, data}`: `code` is absent when it is missing
   * or not a number, `msg` is empty when missing; `payload` stands for the rest.
   * A body that is a string or a number reads as an envelope with neither.
   */
  datatype Envelope = Envelope(code: Option<int>, msg: string, payload: string)

  /** A transport response: its HTTP status and its body, absent when the body is `null` or `undefined`. */
  datatype Response = Response(status: nat, data: Option<Envelope>)

  /** `error?.response?.status === 401`. */
  predicate StatusUnauthorized(err: Thrown) {
    err.Obj? && err.response.Some? && err.response.value.status == Some(401)
  }

  /** An axios request configuration; `headers` may be missing. */
  class Config {
    var headers: Option<map<string, string>>

    constructor (headers0: Option<map<string, string>>)
      ensures headers == headers0
    {
      headers := headers0;
    }
  }

  const Authorization := "Authorization"
  const BearerPrefix := "Bearer "

  /** The `Authorization` value for a bearer token: the scheme, one space, the token. */
  function BearerCredentials(token: string): (v: string)
    ensures |v| == |BearerPrefix| + |token|
  {
    BearerPrefix + token
  }

  /** Reads the token back out of an `Authorization` value, if it uses the bearer scheme. */
  function BearerToken(value: string): (t: Option<string>)
    ensures t.Some? ==> BearerCredentials(t.value) == value
  {
    if |BearerPrefix| <= |value| && value[..|BearerPrefix|] == BearerPrefix
    then Some(value[|BearerPrefix|..])
    else None
  }

  /** The token is recovered from the header value built for it. */
  lemma BearerRoundTrip(token: string)
    ensures BearerToken(BearerCredentials(token)) == Some(token)
  {
    var v := BearerCredentials(token);
    assert v[..|BearerPrefix|] == BearerPrefix;
    assert v[|BearerPrefix|..] == token;
  }
}
