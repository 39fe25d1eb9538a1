/** What the repositories see of the HTTP client: a Retrofit response or a
    thrown exception, as a value. The network itself is not part of this model. */
module Transport {
  import opened Results

  /** The exception classes the repositories tell apart. */
  datatype ExceptionKind =
    | HttpException(code: int)
    | UnknownHost
    | SocketTimeout
    | OtherException

  /** A thrown exception: its class and its nullable `message`. */
  datatype Exception = Exception(kind: ExceptionKind, message: Option<string>)

  /** The outcome of one API call: a response (status code, nullable parsed body,
      reason phrase) or an exception. */
  datatype Call<+T> =
    | Response(code: int, body: Option<T>, reason: string)
    | Thrown(e: Exception)

  /** OkHttp's `Response.isSuccessful`: a 2xx status (section 15.3 of RFC 9110). */
  predicate IsSuccessful(code: int) {
    200 <= code <= 299
  }

  /** A string template over a nullable string renders `null` as "null". */
  function MessageText(m: Option<string>): string {
    match m
    case None => "null"
    case Some(s) => s
  }

  const EMPTY_BODY := "Respuesta vacía del servidor"

  const COOKIE_PREFIX := "token="

  /** The token a `Cookie` header value carries, if it has the app's shape. */
  function CookieToken(cookie: string): Option<string> {
    if |cookie| >= |COOKIE_PREFIX| && cookie[..|COOKIE_PREFIX|] == COOKIE_PREFIX
    then Some(cookie[|COOKIE_PREFIX|..])
    else None
  }

  /** The `Cookie` header value sent with an authenticated request: `"token=$token"`. */
  function Cookie(token: string): (c: string)
    ensures CookieToken(c) == Some(token)
  {
    COOKIE_PREFIX + token
  }
}
