/**
 * The parts of an Express request and response that the modelled
 * middleware and handlers read and write, and the two ways a handler can
 * finish: by answering, or by passing an error on to the global error
 * handler of server.js.
 */
module Http {
  import opened Wrappers
  import Validate
  import opened UserModel
  import opened PaymentModel
  import opened Session

  /** An error handed to the error handler: `err.code`, `err.status`, and `err.message` ("" when absent). */
  datatype HttpError = HttpError(code: Option<string>, status: Option<int>, message: string)

  /** The error csurf raises for a missing or wrong CSRF token. */
  const CsrfError := HttpError(Some("EBADCSRFTOKEN"), Some(403), "invalid csrf token")

  /**
   * One request: the client address fields and User-Agent header the audit
   * log records, the `token` cookie, whether the CSRF token checks out, the
   * parsed body and the `:id` route parameter.
   */
  datatype Request = Request(
    ip: string,
    forwardedFor: Option<string>,
    userAgent: Option<string>,
    tokenCookie: Option<Token>,
    csrfOk: bool,
    body: Validate.Body,
    idParam: string)

  datatype CookieOptions = CookieOptions(httpOnly: bool, secure: bool, sameSite: string, maxAgeMs: Option<nat>)

  /** The options routes/auth.js sets the session cookie with; clearing it omits `maxAge`. */
  function TokenCookieOptions(isProd: bool, withMaxAge: bool): (o: CookieOptions)
    ensures o.httpOnly && o.secure == isProd
    ensures o.sameSite == (if isProd then "strict" else "lax")
    ensures withMaxAge ==> o.maxAgeMs == Some(CookieMaxAgeMs)
    ensures !withMaxAge ==> o.maxAgeMs.None?
  {
    CookieOptions(true, isProd, if isProd then "strict" else "lax", if withMaxAge then Some(CookieMaxAgeMs) else None)
  }

  datatype CookieChange =
    | NoCookieChange
    | SetTokenCookie(token: Token, options: CookieOptions)
    | ClearTokenCookie(options: CookieOptions)

  /** The JSON bodies the modelled routes send. */
  datatype ResponseBody =
    | MsgBody(msg: string)
    | ValidationErrorBody(msg: string, errors: seq<Validate.FieldError>)
    | RegisteredBody(msg: string, user: UserView)
    | LoginBody(msg: string, role: Role)
    | PaymentListBody(payments: seq<PopulatedPayment>)
    | PaymentBody(msg: string, payment: Payment)
    | CsrfTokenBody(csrfToken: string)
    | HealthBody(status: string)
    | NoBody

  datatype Response = Response(status: int, body: ResponseBody, cookie: CookieChange, location: Option<string>)

  /** `res.status(status).json(body)`. */
  function Reply(status: int, body: ResponseBody): Response {
    Response(status, body, NoCookieChange, None)
  }

  /** A handler either answers or calls `next(err)` (csurf does the latter). */
  datatype Outcome = Handled(response: Response) | Forwarded(error: HttpError)

  /** The 400 answer of every validation gate (validate.js:29-34, 46-51, 71-76, 82-87). */
  function ValidationFailure(errors: seq<Validate.FieldError>): Response {
    Reply(400, ValidationErrorBody("Validation error", errors))
  }
}
