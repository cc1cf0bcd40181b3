/**
 * backend/routes/admin.js: the `adminAuth` role gate and the three admin
 * routes, each behind the session gate of middleware/auth.js.  None of them
 * is CSRF-protected or audited (beyond the session gate's own refusals).
 */
module AdminRoutes {
  import opened Wrappers
  import opened UserModel
  import opened PaymentModel
  import opened Session
  import opened Http
  import opened AuditLogger
  import opened AuthMiddleware

  const AdminOnlyMessage := "Access denied. Admin role required."
  const PaymentNotFoundMessage := "Payment not found."
  const ServerErrorMessage := "Server error."
  const VerifiedStatus := "Verified"
  const SubmittedStatus := "Submitted"

  /** `adminAuth` (admin.js:7-11): 403 for every role but admin. */
  function AdminGate(user: ReqUser): (r: Option<Response>)
    ensures r.None? <==> user.role == Admin
    ensures r.Some? ==> r.value == Reply(403, MsgBody(AdminOnlyMessage))
  {
    if user.role != Admin then Some(Reply(403, MsgBody(AdminOnlyMessage))) else None
  }

  /** GET /payments' answer: every payment, newest first, both parties populated. */
  function AllPaymentsList(byId: map<PaymentId, Payment>, nextId: nat, users: map<string, User>): seq<PopulatedPayment>
    requires UniqueIds(users)
  {
    PopulateAll(SortNewestFirst(Collected(byId, nextId)), Directory(users))
  }

  /** The admin listing holds every stored payment exactly once, newest first. */
  lemma AllPaymentsContents(byId: map<PaymentId, Payment>, nextId: nat, users: map<string, User>)
    requires IdsConsistent(byId, nextId) && UniqueIds(users)
    ensures var sorted := SortNewestFirst(Collected(byId, nextId));
      && (forall p :: p in sorted <==> p.id in byId && byId[p.id] == p)
      && |sorted| == |byId|
      && NewestFirst(sorted)
      && AllPaymentsList(byId, nextId, users) == PopulateAll(sorted, Directory(users))
  {
    CollectedAll(byId, nextId);
    var all := Collected(byId, nextId);
    var sorted := SortNewestFirst(all);
    assert |sorted| == |multiset(sorted)| == |multiset(all)| == |all|;
    forall p ensures p in sorted <==> p in all {
      assert p in sorted <==> p in multiset(sorted);
      assert p in all <==> p in multiset(all);
    }
  }

  /** GET /payments (admin.js:14-26). */
  method AllPayments(req: Request, nowMs: nat, users: UserCollection, payments: PaymentCollection,
                     audit: AuditLog, gateAuditOk: bool) returns (o: Outcome)
    requires users.Valid() && payments.Valid()
    modifies audit
    ensures audit.entries == old(audit.entries) + GateEntries(req, nowMs, gateAuditOk)
    ensures SessionGate(req.tokenCookie, nowMs).Stop? ==> o == Handled(SessionGate(req.tokenCookie, nowMs).response)
    ensures SessionGate(req.tokenCookie, nowMs).Pass? && SessionGate(req.tokenCookie, nowMs).user.role != Admin ==>
      o == Handled(Reply(403, MsgBody(AdminOnlyMessage)))
    ensures SessionGate(req.tokenCookie, nowMs).Pass? && SessionGate(req.tokenCookie, nowMs).user.role == Admin ==>
      o == Handled(Reply(200, PaymentListBody(AllPaymentsList(payments.byId, payments.nextId, users.byAccount))))
  {
    var g := AuthenticateUser(req, nowMs, audit, gateAuditOk);
    if g.Stop? {
      return Handled(g.response);
    }
    var denied := AdminGate(g.user);
    if denied.Some? {
      return Handled(denied.value);
    }
    var all := payments.FindAll();
    o := Handled(Reply(200, PaymentListBody(PopulateAll(SortNewestFirst(all), Directory(users.byAccount)))));
  }

  /** The store after one status change: that payment gets the new status, nothing else changes. */
  function StatusUpdated(byId: map<PaymentId, Payment>, id: PaymentId, s: string): (r: map<PaymentId, Payment>)
    requires id in byId
    ensures r.Keys == byId.Keys
    ensures r[id].status == s && r[id].(status := byId[id].status) == byId[id]
    ensures forall other :: other in byId && other != id ==> r[other] == byId[other]
  {
    byId[id := WithStatus(byId[id], s)]
  }

  /** Verify and submit are idempotent: setting a status twice leaves what setting it once left. */
  lemma {:induction false} StatusUpdateIdempotent(byId: map<PaymentId, Payment>, id: PaymentId, s: string)
    requires id in byId
    ensures StatusUpdated(StatusUpdated(byId, id, s), id, s) == StatusUpdated(byId, id, s)
  {
    WithStatusIdempotent(byId[id], s);
  }

  /**
   * Nothing enforces Pending, then Verified, then Submitted: submit applies to a
   * Pending payment directly, and verify to a Submitted one, moving it back.
   */
  lemma StatusOrderNotEnforced(byId: map<PaymentId, Payment>, id: PaymentId)
    requires id in byId
    ensures byId[id].status == PendingStatus ==> StatusUpdated(byId, id, SubmittedStatus)[id].status == SubmittedStatus
    ensures var submitted := StatusUpdated(byId, id, SubmittedStatus);
      StatusUpdated(submitted, id, VerifiedStatus)[id].status == VerifiedStatus
  {
  }

  /**
   * The handler shared by verify (admin.js:29-42) and submit (admin.js:45-59):
   * an id that does not parse makes `findById` throw, which the catch turns
   * into 500; an unknown id gets 404; otherwise the status is overwritten,
   * whatever it was, and the updated payment is echoed.
   */
  method SetStatusRoute(req: Request, nowMs: nat, payments: PaymentCollection, audit: AuditLog, gateAuditOk: bool,
                        status: string, doneMessage: string) returns (o: Outcome)
    requires payments.Valid()
    modifies payments, audit
    ensures payments.Valid()
    ensures SessionGate(req.tokenCookie, nowMs).Stop? ==>
      o == Handled(SessionGate(req.tokenCookie, nowMs).response) && unchanged(payments)
    ensures audit.entries == old(audit.entries) + GateEntries(req, nowMs, gateAuditOk)
    ensures SessionGate(req.tokenCookie, nowMs).Pass? && SessionGate(req.tokenCookie, nowMs).user.role != Admin ==>
      o == Handled(Reply(403, MsgBody(AdminOnlyMessage))) && unchanged(payments)
    ensures SessionGate(req.tokenCookie, nowMs).Pass? && SessionGate(req.tokenCookie, nowMs).user.role == Admin ==>
      match ParseDecimal(req.idParam)
      case None => o == Handled(Reply(500, MsgBody(ServerErrorMessage))) && unchanged(payments)
      case Some(n) =>
        if PaymentId(n) !in old(payments.byId) then
          o == Handled(Reply(404, MsgBody(PaymentNotFoundMessage))) && unchanged(payments)
        else
          && payments.byId == StatusUpdated(old(payments.byId), PaymentId(n), status)
          && payments.nextId == old(payments.nextId)
          && o == Handled(Reply(200, PaymentBody(doneMessage, payments.byId[PaymentId(n)])))
  {
    var g := AuthenticateUser(req, nowMs, audit, gateAuditOk);
    if g.Stop? {
      return Handled(g.response);
    }
    var denied := AdminGate(g.user);
    if denied.Some? {
      return Handled(denied.value);
    }
    var parsed := ParseDecimal(req.idParam);
    if parsed.None? {
      return Handled(Reply(500, MsgBody(ServerErrorMessage)));
    }
    var id := PaymentId(parsed.value);
    var found := payments.FindById(id);
    if found.None? {
      return Handled(Reply(404, MsgBody(PaymentNotFoundMessage)));
    }
    payments.SaveStatus(id, status);
    o := Handled(Reply(200, PaymentBody(doneMessage, WithStatus(found.value, status))));
  }

  /** POST /payments/:id/verify (admin.js:29-42): status "Verified", whatever it was before. */
  method Verify(req: Request, nowMs: nat, payments: PaymentCollection, audit: AuditLog, gateAuditOk: bool)
    returns (o: Outcome)
    requires payments.Valid()
    modifies payments, audit
    ensures payments.Valid()
    ensures audit.entries == old(audit.entries) + GateEntries(req, nowMs, gateAuditOk)
    ensures SessionGate(req.tokenCookie, nowMs).Stop? ==>
      o == Handled(SessionGate(req.tokenCookie, nowMs).response) && unchanged(payments)
    ensures SessionGate(req.tokenCookie, nowMs).Pass? && SessionGate(req.tokenCookie, nowMs).user.role != Admin ==>
      o == Handled(Reply(403, MsgBody(AdminOnlyMessage))) && unchanged(payments)
    ensures SessionGate(req.tokenCookie, nowMs).Pass? && SessionGate(req.tokenCookie, nowMs).user.role == Admin ==>
      match ParseDecimal(req.idParam)
      case None => o == Handled(Reply(500, MsgBody(ServerErrorMessage))) && unchanged(payments)
      case Some(n) =>
        if PaymentId(n) !in old(payments.byId) then
          o == Handled(Reply(404, MsgBody(PaymentNotFoundMessage))) && unchanged(payments)
        else
          && payments.byId == StatusUpdated(old(payments.byId), PaymentId(n), VerifiedStatus)
          && payments.nextId == old(payments.nextId)
          && o == Handled(Reply(200, PaymentBody("Payment verified.", payments.byId[PaymentId(n)])))
  {
    o := SetStatusRoute(req, nowMs, payments, audit, gateAuditOk, VerifiedStatus, "Payment verified.");
  }

  /** POST /payments/:id/submit (admin.js:45-59): status "Submitted", whatever it was before. */
  method Submit(req: Request, nowMs: nat, payments: PaymentCollection, audit: AuditLog, gateAuditOk: bool)
    returns (o: Outcome)
    requires payments.Valid()
    modifies payments, audit
    ensures payments.Valid()
    ensures audit.entries == old(audit.entries) + GateEntries(req, nowMs, gateAuditOk)
    ensures SessionGate(req.tokenCookie, nowMs).Stop? ==>
      o == Handled(SessionGate(req.tokenCookie, nowMs).response) && unchanged(payments)
    ensures SessionGate(req.tokenCookie, nowMs).Pass? && SessionGate(req.tokenCookie, nowMs).user.role != Admin ==>
      o == Handled(Reply(403, MsgBody(AdminOnlyMessage))) && unchanged(payments)
    ensures SessionGate(req.tokenCookie, nowMs).Pass? && SessionGate(req.tokenCookie, nowMs).user.role == Admin ==>
      match ParseDecimal(req.idParam)
      case None => o == Handled(Reply(500, MsgBody(ServerErrorMessage))) && unchanged(payments)
      case Some(n) =>
        if PaymentId(n) !in old(payments.byId) then
          o == Handled(Reply(404, MsgBody(PaymentNotFoundMessage))) && unchanged(payments)
        else
          && payments.byId == StatusUpdated(old(payments.byId), PaymentId(n), SubmittedStatus)
          && payments.nextId == old(payments.nextId)
          && o == Handled(Reply(200, PaymentBody("Payment submitted to SWIFT (simulated).", payments.byId[PaymentId(n)])))
  {
    o := SetStatusRoute(req, nowMs, payments, audit, gateAuditOk, SubmittedStatus, "Payment submitted to SWIFT (simulated).");
  }
}
