/**
 * backend/routes/payments.js: the `authCookie` session gate, a customer's
 * own payment history (GET /me) and payment creation (POST /).
 */
module PaymentRoutes {
  import opened Wrappers
  import opened Validate
  import opened UserModel
  import opened PaymentModel
  import opened Session
  import opened Http
  import opened AuditLogger
  import opened AuthMiddleware

  const ReceiverNotFoundMessage := "Receiver account not found."
  const OwnAccountMessage := "Cannot send funds to your own account."
  const PaymentCreatedMessage := "Payment processed successfully."
  const PaymentErrorMessage := "Server error during payment creation."
  const DefaultCurrency := "USD"
  const DefaultSwiftCode := "NOT_REQUIRED_YET"

  /** The `$or` filter of payments.js:30-32: payments the user sent or received, in their original order. */
  function Involving(ps: seq<Payment>, uid: UserId): (r: seq<Payment>)
    ensures forall p :: p in r <==> p in ps && (p.sender == uid || p.receiver == uid)
    ensures |r| <= |ps|
  {
    if |ps| == 0 then []
    else
      (if ps[0].sender == uid || ps[0].receiver == uid then [ps[0]] else []) + Involving(ps[1..], uid)
  }

  /** The list GET /me answers with: the caller's payments, newest first, both parties populated. */
  function OwnHistory(byId: map<PaymentId, Payment>, nextId: nat, users: map<string, User>, uid: UserId): seq<PopulatedPayment>
    requires UniqueIds(users)
  {
    PopulateAll(SortNewestFirst(Involving(Collected(byId, nextId), uid)), Directory(users))
  }

  /**
   * The history holds exactly the stored payments the caller sent or
   * received, each with its populated parties, ordered newest first.
   */
  lemma OwnHistoryContents(byId: map<PaymentId, Payment>, nextId: nat, users: map<string, User>, uid: UserId)
    requires IdsConsistent(byId, nextId) && UniqueIds(users)
    ensures var sorted := SortNewestFirst(Involving(Collected(byId, nextId), uid));
      && (forall p :: p in sorted <==> p.id in byId && byId[p.id] == p && (p.sender == uid || p.receiver == uid))
      && NewestFirst(sorted)
      && OwnHistory(byId, nextId, users, uid) == PopulateAll(sorted, Directory(users))
  {
    CollectedAll(byId, nextId);
    var mine := Involving(Collected(byId, nextId), uid);
    var sorted := SortNewestFirst(mine);
    forall p ensures p in sorted <==> p in mine {
      assert p in sorted <==> p in multiset(sorted);
      assert p in mine <==> p in multiset(mine);
    }
  }

  /** GET /me (payments.js:27-44), behind `authCookie`, which writes no audit entry when it refuses. */
  method MyPayments(req: Request, nowMs: nat, users: UserCollection, payments: PaymentCollection,
                    audit: AuditLog, auditOk: bool) returns (o: Outcome)
    requires users.Valid() && payments.Valid()
    modifies audit
    ensures SessionGate(req.tokenCookie, nowMs).Stop? ==>
      o == Handled(SessionGate(req.tokenCookie, nowMs).response) && audit.entries == old(audit.entries)
    ensures SessionGate(req.tokenCookie, nowMs).Pass? ==>
      var uid := SessionGate(req.tokenCookie, nowMs).user.userId;
      && o == Handled(Reply(200, PaymentListBody(OwnHistory(payments.byId, payments.nextId, users.byAccount, uid))))
      && audit.entries == old(audit.entries) +
           (if auditOk then [EntryFor(Some(uid), "Viewed Own Payment History", req, nowMs)] else [])
  {
    var g := SessionGate(req.tokenCookie, nowMs);
    if g.Stop? {
      return Handled(g.response);
    }
    var uid := g.user.userId;
    var all := payments.FindAll();
    var list := PopulateAll(SortNewestFirst(Involving(all, uid)), Directory(users.byAccount));
    audit.LogAction(Some(uid), "Viewed Own Payment History", req, nowMs, auditOk);
    o := Handled(Reply(200, PaymentListBody(list)));
  }

  /** The number an `amount` field parses to, if it is present. */
  function AmountOf(body: Body): Option<real> {
    if "amount" in body then body["amount"].number else None
  }

  /**
   * `new Payment({...})` of payments.js:60-67: an empty or absent currency
   * or SWIFT code takes its default.  A body the payment rules accept always
   * gives a draft the schema accepts.
   */
  function PaymentDraftFor(body: Body, sender: UserId, receiver: UserId): (d: PaymentDraft)
    ensures d.sender == sender && d.receiver == receiver && d.amount == AmountOf(body)
    ensures d.payeeAccount == TextOf(body, "receiverAccountNumber")
    ensures TextOf(body, "currency") == "" ==> d.currency == DefaultCurrency
    ensures TextOf(body, "currency") != "" ==> d.currency == TextOf(body, "currency")
    ensures TextOf(body, "swiftCode") == "" ==> d.swiftCode == DefaultSwiftCode
    ensures TextOf(body, "swiftCode") != "" ==> d.swiftCode == TextOf(body, "swiftCode")
    ensures RunChains(PaymentRules, body) == [] ==> PaymentDraftValid(d)
  {
    PaymentAcceptance(body);
    AccountNumberRegexMeaning(TextOf(body, "receiverAccountNumber"));
    var currency := TextOf(body, "currency");
    var swift := TextOf(body, "swiftCode");
    PaymentDraft(sender, receiver, AmountOf(body),
      if currency == "" then DefaultCurrency else currency,
      if swift == "" then DefaultSwiftCode else swift,
      TextOf(body, "receiverAccountNumber"))
  }

  /** The audit action of payments.js:71. */
  function CreatedAction(id: PaymentId): string {
    "Created Payment " + NatToDecimal(id.n)
  }

  /** The audit action names the payment: its id can be read back from it. */
  lemma CreatedActionNamesPayment(id: PaymentId)
    ensures |CreatedAction(id)| > 16 && CreatedAction(id)[..16] == "Created Payment "
    ensures ParseDecimal(CreatedAction(id)[16..]) == Some(id.n)
  {
    assert CreatedAction(id)[16..] == NatToDecimal(id.n);
    ParseDecimalOfNatToDecimal(id.n);
  }

  /** The three gates of POST / in order: `authCookie`, csurf, then the payment rules. */
  predicate PaymentAdmitted(req: Request, nowMs: nat) {
    SessionGate(req.tokenCookie, nowMs).Pass? && req.csrfOk && RunChains(PaymentRules, req.body) == []
  }

  /**
   * POST / (payments.js:47-78).  Any authenticated role may pay.  An
   * unknown receiver and a payment to oneself are refused and store
   * nothing; otherwise exactly one Pending payment is stored and returned
   * with 201.
   */
  method CreatePayment(req: Request, nowMs: nat, users: UserCollection, payments: PaymentCollection,
                       audit: AuditLog, auditOk: bool) returns (o: Outcome)
    requires users.Valid() && payments.Valid()
    modifies payments, audit
    ensures payments.Valid()
    ensures SessionGate(req.tokenCookie, nowMs).Stop? ==>
      o == Handled(SessionGate(req.tokenCookie, nowMs).response) && unchanged(payments, audit)
    ensures SessionGate(req.tokenCookie, nowMs).Pass? && !req.csrfOk ==>
      o == Forwarded(CsrfError) && unchanged(payments, audit)
    ensures SessionGate(req.tokenCookie, nowMs).Pass? && req.csrfOk && RunChains(PaymentRules, req.body) != [] ==>
      o == Handled(ValidationFailure(RunChains(PaymentRules, req.body))) && unchanged(payments, audit)
    ensures PaymentAdmitted(req, nowMs) && TextOf(req.body, "receiverAccountNumber") !in users.byAccount ==>
      o == Handled(Reply(404, MsgBody(ReceiverNotFoundMessage))) && unchanged(payments, audit)
    ensures PaymentAdmitted(req, nowMs) && TextOf(req.body, "receiverAccountNumber") in users.byAccount ==>
      var sender := SessionGate(req.tokenCookie, nowMs).user.userId;
      var receiver := users.byAccount[TextOf(req.body, "receiverAccountNumber")].id;
      if receiver == sender then
        o == Handled(Reply(400, MsgBody(OwnAccountMessage))) && unchanged(payments, audit)
      else
        var p := NewPayment(PaymentDraftFor(req.body, sender, receiver), PaymentId(old(payments.nextId)), nowMs);
        && p.id !in old(payments.byId)
        && payments.byId == old(payments.byId)[p.id := p]
        && o == Handled(Reply(201, PaymentBody(PaymentCreatedMessage, p)))
        && audit.entries == old(audit.entries) + (if auditOk then [EntryFor(Some(sender), CreatedAction(p.id), req, nowMs)] else [])
  {
    var g := SessionGate(req.tokenCookie, nowMs);
    if g.Stop? {
      return Handled(g.response);
    }
    if !req.csrfOk {
      return Forwarded(CsrfError);
    }
    var errors := RunChains(PaymentRules, req.body);
    if ValidationGate(errors).Reject? {
      return Handled(ValidationFailure(errors));
    }
    var sender := g.user.userId;
    var receiverAccount := TextOf(req.body, "receiverAccountNumber");
    var receiver := users.FindOne(receiverAccount);
    if receiver.None? {
      return Handled(Reply(404, MsgBody(ReceiverNotFoundMessage)));
    }
    if receiver.value.id == sender {
      return Handled(Reply(400, MsgBody(OwnAccountMessage)));
    }
    var created := payments.Create(PaymentDraftFor(req.body, sender, receiver.value.id), nowMs);
    if created.None? {
      assert false;
      return Handled(Reply(500, MsgBody(PaymentErrorMessage)));
    }
    var p := created.value;
    audit.LogAction(Some(sender), CreatedAction(p.id), req, nowMs, auditOk);
    o := Handled(Reply(201, PaymentBody(PaymentCreatedMessage, p)));
  }
}
