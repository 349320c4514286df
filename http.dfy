/** Responses of the backend's HTTP handlers and the bearer-token middleware
    in front of the admin routes. */
module Http {

  /** A non-2xx response: its status code and the `error` text of its body. */
  datatype Failure = Failure(status: int, message: string)

  /** A handler's response: a 2xx body, or a failure. */
  datatype Result<T> = Ok(value: T) | Err(failure: Failure)

  /** An exception thrown inside a route handler. The error middleware is
      registered before the routes, so it never sees such an exception and
      Express's default handler answers 500. That handler sends an HTML page
      (a stack trace unless NODE_ENV is `production`); the message here only
      stands in for it. */
  const Crash := Failure(500, "Internal Server Error")

  /** Both date-keyed reports refuse a missing date. */
  const DateRequired := Failure(400, "date query required")

  /** What the auth middleware finds: no `Authorization` header, a token that
      fails JWT verification, or a token that passes it. Signature checking
      and expiry belong to the JWT library and are this value's input. */
  datatype AuthHeader = NoHeader | BadToken | ValidToken

  /** The 401 the middleware sends before the handler runs. */
  function AuthFailure(auth: AuthHeader): (f: Failure)
    requires auth != ValidToken
  {
    if auth == NoHeader then Failure(401, "Missing auth header") else Failure(401, "Invalid token")
  }
}
