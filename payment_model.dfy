/**
 * backend/models/Payments.js: the payment record, its required fields and
 * defaults, and the payments collection with the queries the routes run on
 * it (insert, find by id, save a changed status, find all, sort by
 * creation time and populate the two user references).
 */
module PaymentModel {
  import opened Wrappers
  import opened UserModel

  /** A payment's `_id`. */
  datatype PaymentId = PaymentId(n: nat)

  /** The status a new payment gets (Payments.js:12). */
  const PendingStatus := "Pending"

  /**
   * A stored payment.  `status` is a free string: the schema has no enum
   * and no transition rule.  `createdAt` is in milliseconds.
   */
  datatype Payment = Payment(
    id: PaymentId,
    sender: UserId,
    receiver: UserId,
    amount: real,
    currency: string,
    swiftCode: string,
    payeeAccount: string,
    status: string,
    createdAt: int)

  /** `new Payment({...})`: what a caller supplies; "" stands for a missing string. */
  datatype PaymentDraft = PaymentDraft(
    sender: UserId,
    receiver: UserId,
    amount: Option<real>,
    currency: string,
    swiftCode: string,
    payeeAccount: string)

  /** The required validators of Payments.js:5-11. */
  predicate PaymentDraftValid(d: PaymentDraft) {
    d.amount.Some? && d.currency != "" && d.swiftCode != "" && d.payeeAccount != ""
  }

  /** The document a valid draft becomes: the defaults of Payments.js:12-13 fill status and createdAt. */
  function NewPayment(d: PaymentDraft, id: PaymentId, now: int): (p: Payment)
    requires PaymentDraftValid(d)
    ensures p.id == id && p.sender == d.sender && p.receiver == d.receiver
    ensures p.amount == d.amount.value && p.currency == d.currency
    ensures p.swiftCode == d.swiftCode && p.payeeAccount == d.payeeAccount
    ensures p.status == PendingStatus && p.createdAt == now
  {
    Payment(id, d.sender, d.receiver, d.amount.value, d.currency, d.swiftCode, d.payeeAccount, PendingStatus, now)
  }

  /** `payment.status = s`: nothing but the status changes. */
  function WithStatus(p: Payment, s: string): (q: Payment)
    ensures q.status == s
    ensures q.(status := p.status) == p
  {
    p.(status := s)
  }

  /** Setting a status twice is setting it once. */
  lemma WithStatusIdempotent(p: Payment, s: string)
    ensures WithStatus(WithStatus(p, s), s) == WithStatus(p, s)
  {
  }

  /** Every document sits under its own id, and ids are below the next one to hand out. */
  predicate IdsConsistent(byId: map<PaymentId, Payment>, nextId: nat) {
    forall id :: id in byId ==> byId[id].id == id && id.n < nextId
  }

  /** `Payment.find({})` before sorting: the stored documents in insertion (id) order. */
  function Collected(byId: map<PaymentId, Payment>, n: nat): seq<Payment>
    decreases n
  {
    if n == 0 then []
    else Collected(byId, n - 1) + (if PaymentId(n - 1) in byId then [byId[PaymentId(n - 1)]] else [])
  }

  /** The collected list holds every stored payment below `n`, each once, in increasing id order. */
  lemma {:induction false} CollectedContents(byId: map<PaymentId, Payment>, nextId: nat, n: nat)
    requires IdsConsistent(byId, nextId)
    ensures forall p :: p in Collected(byId, n) <==> p.id in byId && byId[p.id] == p && p.id.n < n
    ensures forall i, j :: 0 <= i < j < |Collected(byId, n)| ==>
      Collected(byId, n)[i].id.n < Collected(byId, n)[j].id.n
    ensures forall i :: 0 <= i < |Collected(byId, n)| ==> Collected(byId, n)[i].id.n < n
    decreases n
  {
    if n > 0 {
      CollectedContents(byId, nextId, n - 1);
    }
  }

  /** The whole collection, in id order. */
  lemma CollectedAll(byId: map<PaymentId, Payment>, nextId: nat)
    requires IdsConsistent(byId, nextId)
    ensures forall p :: p in Collected(byId, nextId) <==> p.id in byId && byId[p.id] == p
    ensures |Collected(byId, nextId)| == |byId|
  {
    CollectedContents(byId, nextId, nextId);
    CollectedSize(byId, nextId, nextId);
    assert (set id | id in byId && id.n < nextId) == byId.Keys;
  }

  lemma {:induction false} CollectedSize(byId: map<PaymentId, Payment>, nextId: nat, n: nat)
    requires IdsConsistent(byId, nextId)
    ensures |Collected(byId, n)| == |set id | id in byId && id.n < n|
    decreases n
  {
    if n > 0 {
      CollectedSize(byId, nextId, n - 1);
      var below := set id | id in byId && id.n < n - 1;
      var upTo := set id | id in byId && id.n < n;
      if PaymentId(n - 1) in byId {
        assert upTo == below + {PaymentId(n - 1)};
      } else {
        assert upTo == below;
      }
    } else {
      assert (set id | id in byId && id.n < 0) == {};
    }
  }

  // ---------------------------------------------------------------------
  // `.sort({ createdAt: -1 })`
  // ---------------------------------------------------------------------

  predicate NewestFirst(ps: seq<Payment>) {
    forall i, j :: 0 <= i < j < |ps| ==> ps[i].createdAt >= ps[j].createdAt
  }

  function InsertByDate(p: Payment, sorted: seq<Payment>): (r: seq<Payment>)
    requires NewestFirst(sorted)
    ensures NewestFirst(r)
    ensures multiset(r) == multiset(sorted) + multiset{p}
    ensures forall x :: x in r ==> x == p || x in sorted
    decreases |sorted|
  {
    if |sorted| == 0 then [p]
    else if p.createdAt >= sorted[0].createdAt then [p] + sorted
    else
      var rest := InsertByDate(p, sorted[1..]);
      assert sorted == [sorted[0]] + sorted[1..];
      HeadNewest(sorted);
      ConsNewest(sorted[0], rest);
      [sorted[0]] + rest
  }

  /** The head of a newest-first sequence is at least as new as every element of it. */
  lemma HeadNewest(ps: seq<Payment>)
    requires NewestFirst(ps) && |ps| > 0
    ensures forall x :: x in ps ==> x.createdAt <= ps[0].createdAt
  {
    forall x | x in ps
      ensures x.createdAt <= ps[0].createdAt
    {
      var k :| 0 <= k < |ps| && ps[k] == x;
    }
  }

  /** A payment at least as new as every element of a newest-first sequence can go in front of it. */
  lemma ConsNewest(h: Payment, ps: seq<Payment>)
    requires NewestFirst(ps) && forall x :: x in ps ==> x.createdAt <= h.createdAt
    ensures NewestFirst([h] + ps)
  {
    var r := [h] + ps;
    forall i, j | 0 <= i < j < |r|
      ensures r[i].createdAt >= r[j].createdAt
    {
      assert r[j] == ps[j - 1];
      if i > 0 {
        assert r[i] == ps[i - 1];
      }
    }
  }

  /** The query's sort: newest first, the same payments with the same multiplicities. */
  function SortNewestFirst(ps: seq<Payment>): (r: seq<Payment>)
    ensures NewestFirst(r)
    ensures multiset(r) == multiset(ps)
    decreases |ps|
  {
    if |ps| == 0 then []
    else
      assert ps == [ps[0]] + ps[1..];
      InsertByDate(ps[0], SortNewestFirst(ps[1..]))
  }

  // ---------------------------------------------------------------------
  // `.populate("sender", "fullName accountNumber")` and the same for receiver
  // ---------------------------------------------------------------------

  /** A populated user reference: `_id` plus the two selected fields. */
  datatype Party = Party(id: UserId, fullName: string, accountNumber: string)

  /** A payment whose references were populated; a reference to a missing user becomes null. */
  datatype PopulatedPayment = PopulatedPayment(
    id: PaymentId,
    sender: Option<Party>,
    receiver: Option<Party>,
    amount: real,
    currency: string,
    swiftCode: string,
    payeeAccount: string,
    status: string,
    createdAt: int)

  predicate UniqueIds(users: map<string, User>) {
    forall a, b :: a in users && b in users && users[a].id == users[b].id ==> a == b
  }

  /** The users collection seen by `_id`, with only the populated fields. */
  function Directory(users: map<string, User>): (dir: map<UserId, Party>)
    requires UniqueIds(users)
    ensures forall a :: a in users ==>
      (users[a].id in dir && dir[users[a].id] == Party(users[a].id, users[a].fullName, users[a].accountNumber))
    ensures forall id :: id in dir ==> exists a :: a in users && users[a].id == id
  {
    map a | a in users :: users[a].id := Party(users[a].id, users[a].fullName, users[a].accountNumber)
  }

  function Populate(p: Payment, dir: map<UserId, Party>): (q: PopulatedPayment)
    ensures q.id == p.id && q.amount == p.amount && q.currency == p.currency
    ensures q.swiftCode == p.swiftCode && q.payeeAccount == p.payeeAccount
    ensures q.status == p.status && q.createdAt == p.createdAt
    ensures q.sender.Some? <==> p.sender in dir
    ensures q.sender.Some? ==> q.sender.value == dir[p.sender]
    ensures q.receiver.Some? <==> p.receiver in dir
    ensures q.receiver.Some? ==> q.receiver.value == dir[p.receiver]
  {
    PopulatedPayment(
      p.id,
      if p.sender in dir then Some(dir[p.sender]) else None,
      if p.receiver in dir then Some(dir[p.receiver]) else None,
      p.amount, p.currency, p.swiftCode, p.payeeAccount, p.status, p.createdAt)
  }

  function PopulateAll(ps: seq<Payment>, dir: map<UserId, Party>): (qs: seq<PopulatedPayment>)
    ensures |qs| == |ps|
    ensures forall i :: 0 <= i < |ps| ==> qs[i] == Populate(ps[i], dir)
  {
    seq(|ps|, i requires 0 <= i < |ps| => Populate(ps[i], dir))
  }

  /**
   * The payments collection: documents by id and the next id to hand out
   * (ids are handed out in creation order).
   */
  class PaymentCollection {
    var byId: map<PaymentId, Payment>
    var nextId: nat

    ghost predicate Valid()
      reads this
    {
      IdsConsistent(byId, nextId)
    }

    constructor()
      ensures Valid() && byId == map[] && nextId == 0
    {
      byId := map[];
      nextId := 0;
    }

    /** `new Payment(d).save()` at time `now`: a refused draft changes nothing. */
    method Create(d: PaymentDraft, now: int) returns (r: Option<Payment>)
      requires Valid()
      modifies this
      ensures Valid()
      ensures r.Some? <==> PaymentDraftValid(d)
      ensures r.None? ==> byId == old(byId) && nextId == old(nextId)
      ensures r.Some? ==>
        && r.value == NewPayment(d, PaymentId(old(nextId)), now)
        && r.value.id !in old(byId)
        && byId == old(byId)[r.value.id := r.value]
        && nextId == old(nextId) + 1
    {
      if !PaymentDraftValid(d) {
        return None;
      }
      var p := NewPayment(d, PaymentId(nextId), now);
      byId := byId[p.id := p];
      nextId := nextId + 1;
      r := Some(p);
    }

    /** `Payment.findById(id)` with an id that parsed. */
    method FindById(id: PaymentId) returns (r: Option<Payment>)
      requires Valid()
      ensures r.Some? <==> id in byId
      ensures r.Some? ==> r.value == byId[id] && r.value.id == id
    {
      if id in byId {
        r := Some(byId[id]);
      } else {
        r := None;
      }
    }

    /** `payment.save()` after changing its status: that one document's status and nothing else changes. */
    method SaveStatus(id: PaymentId, s: string)
      requires Valid() && id in byId
      modifies this
      ensures Valid()
      ensures byId == old(byId)[id := WithStatus(old(byId)[id], s)]
      ensures nextId == old(nextId)
    {
      byId := byId[id := WithStatus(byId[id], s)];
    }

    /** `Payment.find({})`: every stored payment, once each, in id order. */
    method FindAll() returns (ps: seq<Payment>)
      requires Valid()
      ensures ps == Collected(byId, nextId)
    {
      ps := [];
      for i := 0 to nextId
        invariant ps == Collected(byId, i)
      {
        if PaymentId(i) in byId {
          ps := ps + [byId[PaymentId(i)]];
        }
      }
    }
  }
}
