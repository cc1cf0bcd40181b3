/**
 * backend/middleware/auth.js: `authenticateUser`, the session gate of the
 * logout and admin routes.  It answers 401 when the `token` cookie is
 * missing or does not verify, recording the attempt in the audit log, and
 * otherwise sets `req.user` and calls `next()`.
 */
module AuthMiddleware {
  import opened Wrappers
  import opened Session
  import opened Http
  import opened AuditLogger

  /** A gate either lets the request on, with `req.user` set, or answers it. */
  datatype GateResult = Pass(user: ReqUser) | Stop(response: Response)

  /**
   * The answer both session gates give (middleware/auth.js:8-21 and
   * routes/payments.js:13-23): 401 with a message that tells a missing token
   * from a bad one, or passage with exactly the payload's user and role.
   */
  function SessionGate(cookie: Option<Token>, nowMs: nat): (g: GateResult)
    ensures cookie.None? ==> g == Stop(Reply(401, MsgBody(NoTokenMessage)))
    ensures cookie.Some? && !Verifies(cookie.value, nowMs) ==> g == Stop(Reply(401, MsgBody(BadTokenMessage)))
    ensures cookie.Some? && Verifies(cookie.value, nowMs) ==>
      g == Pass(ReqUser(cookie.value.userId, cookie.value.role))
  {
    match Authenticate(cookie, nowMs)
    case NoToken => Stop(Reply(401, MsgBody(NoTokenMessage)))
    case BadToken => Stop(Reply(401, MsgBody(BadTokenMessage)))
    case Accepted(u) => Pass(u)
  }

  const NoTokenAction := "Unauthorized access attempt - no token"
  const BadTokenAction := "Invalid JWT detected"

  /**
   * The entries the session gate appends to the audit log (auth.js:9, 18):
   * one "system" entry for each refusal whose insert succeeds, none on
   * passage.
   */
  function GateEntries(req: Request, nowMs: nat, storeOk: bool): (es: seq<AuditEntry>)
    ensures SessionGate(req.tokenCookie, nowMs).Pass? || !storeOk ==> es == []
    ensures storeOk && req.tokenCookie.None? ==> es == [EntryFor(None, NoTokenAction, req, nowMs)]
    ensures storeOk && req.tokenCookie.Some? && !Verifies(req.tokenCookie.value, nowMs) ==>
      es == [EntryFor(None, BadTokenAction, req, nowMs)]
  {
    if !storeOk then []
    else match req.tokenCookie
      case None => [EntryFor(None, NoTokenAction, req, nowMs)]
      case Some(t) => if Verifies(t, nowMs) then [] else [EntryFor(None, BadTokenAction, req, nowMs)]
  }

  /**
   * `authenticateUser` (middleware/auth.js:6-22).  Each refusal records one
   * "system" entry before answering; the insert is not awaited, so whether
   * it succeeds (`storeOk`) has no bearing on the answer.  Passage writes
   * no entry.
   */
  method AuthenticateUser(req: Request, nowMs: nat, audit: AuditLog, storeOk: bool) returns (g: GateResult)
    modifies audit
    ensures g == SessionGate(req.tokenCookie, nowMs)
    ensures req.tokenCookie.None? ==>
      audit.entries == old(audit.entries) + (if storeOk then [EntryFor(None, NoTokenAction, req, nowMs)] else [])
    ensures req.tokenCookie.Some? && !Verifies(req.tokenCookie.value, nowMs) ==>
      audit.entries == old(audit.entries) + (if storeOk then [EntryFor(None, BadTokenAction, req, nowMs)] else [])
    ensures g.Pass? ==> audit.entries == old(audit.entries)
    ensures audit.entries == old(audit.entries) + GateEntries(req, nowMs, storeOk)
  {
    match req.tokenCookie {
      case None =>
        audit.LogAction(None, NoTokenAction, req, nowMs, storeOk);
        g := Stop(Reply(401, MsgBody(NoTokenMessage)));
      case Some(t) =>
        if Verifies(t, nowMs) {
          g := Pass(ReqUser(t.userId, t.role));
        } else {
          audit.LogAction(None, BadTokenAction, req, nowMs, storeOk);
          g := Stop(Reply(401, MsgBody(BadTokenMessage)));
        }
    }
  }
}
