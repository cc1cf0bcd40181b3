/**
 * The parts of backend/server.js that decide an answer: the production
 * HTTPS redirect, the csrf-token and health routes, and the global error
 * handler every forwarded error ends in.
 */
module Server {
  import opened Wrappers
  import opened JsonValue
  import opened Http
  import opened Sanitize

  const CsrfErrorCode := "EBADCSRFTOKEN"
  const CsrfRejectedMessage := "Invalid or missing CSRF token"
  const ServerErrorMessage := "Server error."

  /**
   * The global error handler (server.js:96-102).  A csurf error is always
   * 403 with a fixed message; any other error keeps its own status when it
   * has a truthy one (else 500) and its own message when it is non-empty
   * (else "Server error.").
   */
  function ErrorHandler(err: HttpError): (r: Response)
    ensures r.cookie == NoCookieChange && r.location.None?
    ensures err.code == Some(CsrfErrorCode) ==> r.status == 403 && r.body == MsgBody(CsrfRejectedMessage)
    ensures err.code != Some(CsrfErrorCode) ==>
      && (err.status.Some? && err.status.value != 0 ==> r.status == err.status.value)
      && (err.status.None? || err.status.value == 0 ==> r.status == 500)
      && (err.message != "" ==> r.body == MsgBody(err.message))
      && (err.message == "" ==> r.body == MsgBody(ServerErrorMessage))
  {
    if err.code == Some(CsrfErrorCode) then
      Reply(403, MsgBody(CsrfRejectedMessage))
    else
      var status := if err.status.Some? && err.status.value != 0 then err.status.value else 500;
      var msg := if err.message != "" then err.message else ServerErrorMessage;
      Reply(status, MsgBody(msg))
  }

  /** What the client receives for a handler's outcome: its own answer, or the error handler's. */
  function Dispatch(o: Outcome): (r: Response)
    ensures o.Handled? ==> r == o.response
    ensures o.Forwarded? ==> r == ErrorHandler(o.error)
  {
    match o
    case Handled(resp) => resp
    case Forwarded(err) => ErrorHandler(err)
  }

  /** Every CSRF refusal of the routes reaches the client as 403, whatever status csurf attached. */
  lemma CsrfRefusalIs403(status: Option<int>, message: string)
    ensures Dispatch(Forwarded(CsrfError)) == Reply(403, MsgBody(CsrfRejectedMessage))
    ensures ErrorHandler(HttpError(Some(CsrfErrorCode), status, message)).status == 403
  {
  }

  /**
   * The sanitizer of sanitize.js, as written, would answer every request
   * that carries a non-empty body or params with 500 and the
   * ReferenceError's message, were it mounted (server.js:38-39 mounts the
   * library sanitizers instead).
   */
  lemma SanitizeAsWrittenAnswers500(req: RequestData)
    requires WellFormed(req.body) && WellFormed(req.params)
    requires HasEntries(req.body) || HasEntries(req.params)
    ensures SanitizeRequestAsWritten(req).Raise?
    ensures ErrorHandler(SanitizeRequestAsWritten(req).err) == Reply(500, MsgBody("safeKey is not defined"))
  {
  }

  /** How the redirect middleware treats a request. */
  datatype RedirectDecision = PassOn | Redirect(response: Response)

  /**
   * The HTTPS redirect (server.js:65-71), installed only in production: a
   * request that did not arrive over TLS and whose `x-forwarded-proto` is
   * not "https" is sent, with 301, to the same host and URL over https.
   */
  function RedirectRule(isProd: bool, secure: bool, forwardedProto: Option<string>, hostname: string, originalUrl: string)
    : (d: RedirectDecision)
    ensures d.Redirect? <==> isProd && !secure && forwardedProto != Some("https")
    ensures d.Redirect? ==>
      && d.response.status == 301 && d.response.body == NoBody
      && d.response.location == Some("https://" + hostname + originalUrl)
  {
    if isProd && !secure && forwardedProto != Some("https") then
      Redirect(Response(301, NoBody, NoCookieChange, Some("https://" + hostname + originalUrl)))
    else PassOn
  }

  /** A redirected request, sent again to where it was redirected over TLS, passes. */
  lemma RedirectTargetPasses(isProd: bool, forwardedProto: Option<string>, hostname: string, originalUrl: string)
    ensures RedirectRule(isProd, true, forwardedProto, hostname, originalUrl) == PassOn
    ensures RedirectRule(isProd, false, Some("https"), hostname, originalUrl) == PassOn
    ensures !isProd ==> RedirectRule(isProd, false, forwardedProto, hostname, originalUrl) == PassOn
  {
  }

  /** GET /api/csrf-token (server.js:76-78): csurf lets a GET through, and the token is handed out. */
  function CsrfTokenRoute(token: string): (r: Response)
    ensures r.status == 200 && r.body == CsrfTokenBody(token)
  {
    Reply(200, CsrfTokenBody(token))
  }

  /** GET /api/health (server.js:93). */
  function HealthRoute(): (r: Response)
    ensures r.status == 200 && r.body == HealthBody("ok")
  {
    Reply(200, HealthBody("ok"))
  }
}
