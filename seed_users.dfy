/**
 * backend/seedUsers.js: inserts a fixed list of accounts (two customers and
 * the only admin, which registration cannot create) into the users
 * collection, skipping any whose account number is already taken.  The
 * database is given to the model as a `UserCollection`; a connection or
 * query failure is a parameter.
 */
module SeedUsers {
  import opened Wrappers
  import opened UserModel
  import opened Validate

  /** The seed list of seedUsers.js:13-35, as the drafts `new User(u)` receives. */
  const Seeds: seq<Draft> := [
    Draft("Alice Customer", "8001015009087", "10000001", Plain("Secur3P@ssw0rd"), Some("customer")),
    Draft("Bob Receiver", "8202025009086", "10000002", Plain("Secur3P@ssw0rd"), Some("customer")),
    Draft("Admin User", "7703035009085", "admin0001", Plain("AdminSecur3!"), Some("admin"))
  ]

  /** Account numbers of the first `n` drafts. */
  function AccountsOf(seeds: seq<Draft>, n: nat): (r: set<string>)
    requires n <= |seeds|
    ensures forall j :: 0 <= j < n ==> seeds[j].accountNumber in r
    ensures forall a :: a in r ==> exists j :: 0 <= j < n && seeds[j].accountNumber == a
  {
    if n == 0 then {} else AccountsOf(seeds, n - 1) + {seeds[n - 1].accountNumber}
  }

  /**
   * The list is two customers and one admin, `admin0001`; every draft passes
   * the schema, the account numbers are distinct, and each stored seed keeps
   * its role.
   */
  lemma SeedList()
    ensures |Seeds| == 3
    ensures DistinctAccounts(Seeds)
    ensures forall id :: Stored(Seeds[0], id).role == Customer && Stored(Seeds[1], id).role == Customer
    ensures forall id :: Stored(Seeds[2], id).role == Admin && Stored(Seeds[2], id).accountNumber == "admin0001"
  {
    assert Seeds[0].accountNumber[7] == '1' && Seeds[1].accountNumber[7] == '2';
    assert Seeds[2].accountNumber[0] == 'a';
  }

  /** Every seed passes the schema validators. */
  lemma SeedsValid()
    ensures forall j :: 0 <= j < |Seeds| ==> DraftValid(Seeds[j])
  {
  }

  /** The seeded account numbers satisfy the registration rule for account numbers. */
  lemma SeedAccountsFitRegistration()
    ensures forall j :: 0 <= j < |Seeds| ==> ValidAccountNumber(Seeds[j].accountNumber)
  {
    var alice := "10000001";
    assert forall i :: 0 <= i < |alice| ==> IsAsciiDigit(alice[i]);
    var bob := "10000002";
    assert forall i :: 0 <= i < |bob| ==> IsAsciiDigit(bob[i]);
    var admin := "admin0001";
    assert forall i :: 0 <= i < |admin| ==> IsWordChar(admin[i]);
  }

  /** The seeded id numbers satisfy the registration rule for id numbers. */
  lemma SeedIdNumbersFitRegistration()
    ensures forall j :: 0 <= j < |Seeds| ==> ValidIdNumber(Seeds[j].idNumber)
  {
    var id0 := "8001015009087";
    assert forall i :: 0 <= i < |id0| ==> IsAsciiDigit(id0[i]);
    var id1 := "8202025009086";
    assert forall i :: 0 <= i < |id1| ==> IsAsciiDigit(id1[i]);
    var id2 := "7703035009085";
    assert forall i :: 0 <= i < |id2| ==> IsAsciiDigit(id2[i]);
  }

  /** How `run` ends: every seed handled, or an error caught and logged. */
  datatype SeedOutcome = Completed | Caught

  /** Every draft's account number is among the keys of `docs`. */
  predicate AllPresent(seeds: seq<Draft>, docs: map<string, User>) {
    forall j :: 0 <= j < |seeds| ==> seeds[j].accountNumber in docs
  }

  /** No two drafts share an account number. */
  predicate DistinctAccounts(seeds: seq<Draft>) {
    forall j, k :: 0 <= j < k < |seeds| ==> seeds[j].accountNumber != seeds[k].accountNumber
  }

  /**
   * One turn of the loop for draft `d`, from (`cur`, `curNext`) to (`next`,
   * `nextNext`): a taken account number is skipped, any other is saved.
   */
  predicate Turn(cur: map<string, User>, curNext: nat, next: map<string, User>, nextNext: nat, d: Draft)
    requires DraftValid(d)
  {
    && (d.accountNumber in cur ==> next == cur && nextNext == curNext)
    && (d.accountNumber !in cur ==> next == cur[d.accountNumber := Stored(d, UserId(curNext))] && nextNext == curNext + 1)
  }

  /** Documents present in `orig` are still there, unchanged. */
  predicate Preserved(orig: map<string, User>, cur: map<string, User>) {
    forall a :: a in orig ==> a in cur && cur[a] == orig[a]
  }

  /** The first `i` drafts each left their document under their account number, as stored from that draft. */
  predicate Covered(orig: map<string, User>, cur: map<string, User>, seeds: seq<Draft>, i: nat)
    requires i <= |seeds| && forall j :: 0 <= j < |seeds| ==> DraftValid(seeds[j])
  {
    forall j :: 0 <= j < i ==>
      && seeds[j].accountNumber in cur
      && (seeds[j].accountNumber !in orig ==> cur[seeds[j].accountNumber] == Stored(seeds[j], cur[seeds[j].accountNumber].id))
  }

  lemma PreservedStep(orig: map<string, User>, cur: map<string, User>, curNext: nat,
                      next: map<string, User>, nextNext: nat, d: Draft)
    requires DraftValid(d) && Preserved(orig, cur) && Turn(cur, curNext, next, nextNext, d)
    ensures Preserved(orig, next)
  {
  }

  lemma AddedStep(orig: map<string, User>, cur: map<string, User>, curNext: nat,
                  next: map<string, User>, nextNext: nat, seeds: seq<Draft>, i: nat)
    requires i < |seeds| && DraftValid(seeds[i])
    requires forall a :: a in cur ==> a in orig || a in AccountsOf(seeds, i)
    requires Turn(cur, curNext, next, nextNext, seeds[i])
    ensures forall a :: a in next ==> a in orig || a in AccountsOf(seeds, i + 1)
  {
  }

  lemma CoveredStep(orig: map<string, User>, cur: map<string, User>, curNext: nat,
                    next: map<string, User>, nextNext: nat, seeds: seq<Draft>, i: nat)
    requires i < |seeds| && DistinctAccounts(seeds) && forall j :: 0 <= j < |seeds| ==> DraftValid(seeds[j])
    requires Covered(orig, cur, seeds, i)
    requires forall a :: a in cur ==> a in orig || a in AccountsOf(seeds, i)
    requires Turn(cur, curNext, next, nextNext, seeds[i])
    ensures Covered(orig, next, seeds, i + 1)
  {
    var acct := seeds[i].accountNumber;
    if acct in cur {
      NotYetSeen(seeds, i, i);
      CoveredSkip(orig, cur, seeds, i);
    } else {
      CoveredSave(orig, cur, seeds, i, UserId(curNext));
    }
  }

  /** A turn that skips a draft whose account was there from the start keeps the coverage. */
  lemma CoveredSkip(orig: map<string, User>, cur: map<string, User>, seeds: seq<Draft>, i: nat)
    requires i < |seeds| && forall j :: 0 <= j < |seeds| ==> DraftValid(seeds[j])
    requires Covered(orig, cur, seeds, i)
    requires seeds[i].accountNumber in orig && seeds[i].accountNumber in cur
    ensures Covered(orig, cur, seeds, i + 1)
  {
  }

  /** A turn that saves a draft whose account is new covers it as well as the drafts before it. */
  lemma CoveredSave(orig: map<string, User>, cur: map<string, User>, seeds: seq<Draft>, i: nat, id: UserId)
    requires i < |seeds| && DistinctAccounts(seeds) && forall j :: 0 <= j < |seeds| ==> DraftValid(seeds[j])
    requires Covered(orig, cur, seeds, i)
    requires seeds[i].accountNumber !in cur
    ensures Covered(orig, cur[seeds[i].accountNumber := Stored(seeds[i], id)], seeds, i + 1)
  {
    var acct := seeds[i].accountNumber;
    var next := cur[acct := Stored(seeds[i], id)];
    forall j | 0 <= j < i + 1
      ensures seeds[j].accountNumber in next
      ensures seeds[j].accountNumber !in orig ==>
        next[seeds[j].accountNumber] == Stored(seeds[j], next[seeds[j].accountNumber].id)
    {
      if j < i {
        assert seeds[j].accountNumber != acct;
      }
    }
  }

  /** With distinct account numbers, draft `i`'s account is none of the first `n` drafts'. */
  lemma {:induction false} NotYetSeen(seeds: seq<Draft>, i: nat, n: nat)
    requires n <= i < |seeds| && DistinctAccounts(seeds)
    ensures seeds[i].accountNumber !in AccountsOf(seeds, n)
  {
    if n > 0 {
      NotYetSeen(seeds, i, n - 1);
    }
  }

  /** When every account was taken to begin with, no turn changes anything. */
  lemma IdleStep(orig: map<string, User>, origNext: nat, cur: map<string, User>, curNext: nat,
                 next: map<string, User>, nextNext: nat, seeds: seq<Draft>, i: nat)
    requires i < |seeds| && DraftValid(seeds[i])
    requires AllPresent(seeds, orig) ==> cur == orig && curNext == origNext
    requires Turn(cur, curNext, next, nextNext, seeds[i])
    ensures AllPresent(seeds, orig) ==> next == orig && nextNext == origNext
  {
  }

  /** Whenever the loop stops, every document added is a seed's, as stored from that seed. */
  lemma AddedAreSeeds(orig: map<string, User>, cur: map<string, User>, seeds: seq<Draft>, i: nat)
    requires i <= |seeds| && DistinctAccounts(seeds) && forall j :: 0 <= j < |seeds| ==> DraftValid(seeds[j])
    requires Covered(orig, cur, seeds, i)
    requires forall a :: a in cur ==> a in orig || a in AccountsOf(seeds, i)
    ensures forall a :: a in cur ==> a in orig || a in AccountsOf(seeds, |seeds|)
    ensures forall j :: 0 <= j < |seeds| && seeds[j].accountNumber in cur && seeds[j].accountNumber !in orig ==>
      cur[seeds[j].accountNumber] == Stored(seeds[j], cur[seeds[j].accountNumber].id)
  {
    forall j | 0 <= j < |seeds| && seeds[j].accountNumber in cur && seeds[j].accountNumber !in orig
      ensures cur[seeds[j].accountNumber] == Stored(seeds[j], cur[seeds[j].accountNumber].id)
    {
    }
  }

  /**
   * The loop of seedUsers.js:44-53 over `seeds`: a draft whose account
   * number is taken is skipped, any other is saved.  `failAt` names the
   * draft whose query or save throws, if any, which ends the loop.
   * Existing documents are never touched, each inserted draft is stored
   * with its password hashed once, and nothing but seed accounts is added.
   */
  method InsertMissing(users: UserCollection, seeds: seq<Draft>, failAt: Option<nat>) returns (thrown: bool)
    requires users.Valid()
    requires DistinctAccounts(seeds) && forall j :: 0 <= j < |seeds| ==> DraftValid(seeds[j])
    modifies users
    ensures users.Valid()
    ensures thrown <==> failAt.Some? && failAt.value < |seeds|
    ensures forall a :: a in old(users.byAccount) ==> a in users.byAccount && users.byAccount[a] == old(users.byAccount)[a]
    ensures forall a :: a in users.byAccount ==> a in old(users.byAccount) || a in AccountsOf(seeds, |seeds|)
    ensures !thrown ==> AllPresent(seeds, users.byAccount)
    ensures forall j :: 0 <= j < |seeds| && seeds[j].accountNumber in users.byAccount && seeds[j].accountNumber !in old(users.byAccount) ==>
      users.byAccount[seeds[j].accountNumber] == Stored(seeds[j], users.byAccount[seeds[j].accountNumber].id)
    ensures AllPresent(seeds, old(users.byAccount)) ==>
      users.byAccount == old(users.byAccount) && users.nextId == old(users.nextId)
  {
    var i := 0;
    while i < |seeds|
      invariant 0 <= i <= |seeds|
      invariant users.Valid()
      invariant failAt.Some? ==> i <= failAt.value
      invariant Preserved(old(users.byAccount), users.byAccount)
      invariant forall a :: a in users.byAccount ==> a in old(users.byAccount) || a in AccountsOf(seeds, i)
      invariant Covered(old(users.byAccount), users.byAccount, seeds, i)
      invariant AllPresent(seeds, old(users.byAccount)) ==>
        users.byAccount == old(users.byAccount) && users.nextId == old(users.nextId)
    {
      if failAt == Some(i) {
        AddedAreSeeds(old(users.byAccount), users.byAccount, seeds, i);
        return true;
      }
      ghost var cur := users.byAccount;
      ghost var curNext := users.nextId;
      var existing := users.FindOne(seeds[i].accountNumber);
      if existing.None? {
        var saved := users.Save(seeds[i]);
        if saved.Err? {
          assert false;
          return true;
        }
      }
      ghost var orig := old(users.byAccount);
      assert Turn(cur, curNext, users.byAccount, users.nextId, seeds[i]);
      PreservedStep(orig, cur, curNext, users.byAccount, users.nextId, seeds[i]);
      CoveredStep(orig, cur, curNext, users.byAccount, users.nextId, seeds, i);
      AddedStep(orig, cur, curNext, users.byAccount, users.nextId, seeds, i);
      IdleStep(orig, old(users.nextId), cur, curNext, users.byAccount, users.nextId, seeds, i);
      i := i + 1;
    }
    AddedAreSeeds(old(users.byAccount), users.byAccount, seeds, i);
    thrown := false;
  }

  /**
   * `run` (seedUsers.js:38-60).  `connected` says whether `mongoose.connect`
   * succeeded.  A failed connection or a thrown query ends in the catch
   * block; the finally block disconnects in every case.  A completed run
   * leaves every seed account present, so a second run changes nothing.
   */
  method Run(users: UserCollection, connected: bool, failAt: Option<nat>) returns (outcome: SeedOutcome, disconnected: bool)
    requires users.Valid()
    modifies users
    ensures users.Valid()
    ensures disconnected
    ensures outcome == Completed <==> connected && (failAt.None? || failAt.value >= |Seeds|)
    ensures forall a :: a in old(users.byAccount) ==> a in users.byAccount && users.byAccount[a] == old(users.byAccount)[a]
    ensures forall a :: a in users.byAccount ==> a in old(users.byAccount) || a in AccountsOf(Seeds, |Seeds|)
    ensures outcome == Completed ==> AllPresent(Seeds, users.byAccount)
    ensures forall j :: 0 <= j < |Seeds| && Seeds[j].accountNumber in users.byAccount && Seeds[j].accountNumber !in old(users.byAccount) ==>
      users.byAccount[Seeds[j].accountNumber] == Stored(Seeds[j], users.byAccount[Seeds[j].accountNumber].id)
    ensures AllPresent(Seeds, old(users.byAccount)) ==>
      users.byAccount == old(users.byAccount) && users.nextId == old(users.nextId)
  {
    SeedsValid();
    SeedList();
    if connected {
      var thrown := InsertMissing(users, Seeds, failAt);
      outcome := if thrown then Caught else Completed;
    } else {
      outcome := Caught;
    }
    disconnected := true;
  }
}
