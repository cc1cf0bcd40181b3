/**
 * backend/utils/auditLogger.js: `logAction` appends one record to the
 * audit collection and swallows any failure of the insert.
 */
module AuditLogger {
  import opened Wrappers
  import opened UserModel
  import opened Http

  /** The `user` field: the acting user's id, or the string "system". */
  datatype AuditUser = Actor(id: UserId) | System

  datatype AuditEntry = AuditEntry(
    user: AuditUser,
    action: string,
    ip: Option<string>,
    userAgent: Option<string>,
    timestamp: int)

  /**
   * The record `logAction(userId, action, req)` builds at time `now`
   * (auditLogger.js:6-12): a missing user id is recorded as "system", and
   * `req.ip` is used unless it is empty, when the X-Forwarded-For header is.
   */
  function EntryFor(userId: Option<UserId>, action: string, req: Request, now: int): (e: AuditEntry)
    ensures e.user.System? <==> userId.None?
    ensures userId.Some? ==> e.user == Actor(userId.value)
    ensures req.ip != "" ==> e.ip == Some(req.ip)
    ensures req.ip == "" ==> e.ip == req.forwardedFor
    ensures e.action == action && e.userAgent == req.userAgent && e.timestamp == now
  {
    AuditEntry(
      if userId.Some? then Actor(userId.value) else System,
      action,
      if req.ip != "" then Some(req.ip) else req.forwardedFor,
      req.userAgent,
      now)
  }

  /** The audit collection: an append-only sequence of entries. */
  class AuditLog {
    var entries: seq<AuditEntry>

    constructor()
      ensures entries == []
    {
      entries := [];
    }

    /**
     * `logAction`: when the insert succeeds (`storeOk`) exactly one entry
     * is appended; when it fails the error is caught and nothing changes.
     * Either way the call returns normally.
     */
    method LogAction(userId: Option<UserId>, action: string, req: Request, now: int, storeOk: bool)
      modifies this
      ensures storeOk ==> entries == old(entries) + [EntryFor(userId, action, req, now)]
      ensures !storeOk ==> entries == old(entries)
    {
      if storeOk {
        entries := entries + [EntryFor(userId, action, req, now)];
      }
    }
  }
}
