/**
 * backend/routes/auth.js: register, login and logout, with their gates in
 * the order the routes declare them.
 *
 * Two defects keep a registered user from ever logging in, and both are
 * modelled as written next to a corrected handler:
 *  - register hashes the password (auth.js:19) and the pre-save hook hashes
 *    it again (User.js:18-20), so the stored hash is the hash of a hash;
 *  - login reads `user.password` from a query that leaves the password out
 *    (User.js:9), so `bcrypt.compare` rejects and the handler answers 500 for
 *    every existing account.
 */
module AuthRoutes {
  import opened Wrappers
  import opened Validate
  import opened UserModel
  import opened Session
  import opened Http
  import opened AuditLogger
  import opened AuthMiddleware

  const AccountExistsMessage := "Account already exists."
  const RegisterErrorMessage := "Server error during registration."
  const InvalidCredentialsMessage := "Invalid credentials."
  const LoginErrorMessage := "Server error during login."

  /** The request got past the CSRF check and the route's validation rules. */
  predicate Admitted(req: Request, rules: seq<Chain>) {
    req.csrfOk && RunChains(rules, req.body) == []
  }

  /** The gates of register and login: csurf first, then the validation rules. */
  function CsrfThenValidation(req: Request, rules: seq<Chain>): (r: Option<Outcome>)
    ensures r.None? <==> Admitted(req, rules)
    ensures !req.csrfOk ==> r == Some(Forwarded(CsrfError))
    ensures req.csrfOk && RunChains(rules, req.body) != [] ==>
      r == Some(Handled(ValidationFailure(RunChains(rules, req.body))))
  {
    if !req.csrfOk then Some(Forwarded(CsrfError))
    else match ValidationGate(RunChains(rules, req.body))
      case Reject(errors) => Some(Handled(ValidationFailure(errors)))
      case Proceed => None
  }

  /** The user a registration creates: the body's fields, role "customer" whatever the body says. */
  function NewCustomer(body: Body, id: UserId, password: Secret): (u: User)
    ensures u.role == Customer && u.id == id && u.password == password
    ensures u.accountNumber == TextOf(body, "accountNumber")
  {
    User(id, TextOf(body, "fullName"), TextOf(body, "idNumber"), TextOf(body, "accountNumber"), password, Customer)
  }

  /** The answer to a registration that stored `u`: the echo holds no password, the token goes in the cookie. */
  function Registered(u: User, nowMs: nat, isProd: bool): (r: Response)
    ensures r.status == 200
    ensures r.body == RegisteredBody("Registration successful", ViewOf(u))
    ensures r.cookie == SetTokenCookie(Issue(u.id, u.role, nowMs), TokenCookieOptions(isProd, true))
  {
    Response(200, RegisteredBody("Registration successful", ViewOf(u)),
      SetTokenCookie(Issue(u.id, u.role, nowMs), TokenCookieOptions(isProd, true)), None)
  }

  /**
   * POST /register as written (auth.js:13-56).  The handler hashes the
   * password before `new User`, and the pre-save hook hashes it again.
   * bcrypt refuses a password that is not a JSON string (a number passes
   * the length rule on its text), and the catch answers 500.
   */
  method Register(req: Request, nowMs: nat, isProd: bool, users: UserCollection, audit: AuditLog, auditOk: bool)
    returns (o: Outcome)
    requires users.Valid()
    modifies users, audit
    ensures users.Valid()
    ensures CsrfThenValidation(req, RegisterRules).Some? ==>
      o == CsrfThenValidation(req, RegisterRules).value && unchanged(users, audit)
    ensures Admitted(req, RegisterRules) && TextOf(req.body, "accountNumber") in old(users.byAccount) ==>
      o == Handled(Reply(400, MsgBody(AccountExistsMessage))) && unchanged(users, audit)
    ensures Admitted(req, RegisterRules) && TextOf(req.body, "accountNumber") !in old(users.byAccount)
            && !IsStringField(req.body, "password") ==>
      o == Handled(Reply(500, MsgBody(RegisterErrorMessage))) && unchanged(users, audit)
    ensures Admitted(req, RegisterRules) && TextOf(req.body, "accountNumber") !in old(users.byAccount)
            && IsStringField(req.body, "password") ==>
      var u := NewCustomer(req.body, UserId(old(users.nextId)), Hashed(Hashed(Plain(TextOf(req.body, "password")))));
      && users.byAccount == old(users.byAccount)[u.accountNumber := u]
      && o == Handled(Registered(u, nowMs, isProd))
      && audit.entries == old(audit.entries) + (if auditOk then [EntryFor(Some(u.id), "User Registered", req, nowMs)] else [])
  {
    var gate := CsrfThenValidation(req, RegisterRules);
    if gate.Some? {
      return gate.value;
    }
    RegisterBodyComplete(req.body);
    var account := TextOf(req.body, "accountNumber");
    var existing := users.FindOne(account);
    if existing.Some? {
      return Handled(Reply(400, MsgBody(AccountExistsMessage)));
    }
    // auth.js:19: bcrypt.hash rejects anything but a string
    if !IsStringField(req.body, "password") {
      return Handled(Reply(500, MsgBody(RegisterErrorMessage)));
    }
    // the handler hashes; the pre-save hook will hash once more
    var hashed := Hashed(Plain(TextOf(req.body, "password")));
    var saved := users.Save(Draft(TextOf(req.body, "fullName"), TextOf(req.body, "idNumber"), account, hashed, Some("customer")));
    if saved.Err? {
      assert false;
      return Handled(Reply(500, MsgBody(RegisterErrorMessage)));
    }
    var u := saved.value;
    audit.LogAction(Some(u.id), "User Registered", req, nowMs, auditOk);
    o := Handled(Registered(u, nowMs, isProd));
  }

  /** A body the registration rules accept has every field the schema requires, none of them empty. */
  lemma RegisterBodyComplete(body: Body)
    requires RunChains(RegisterRules, body) == []
    ensures TextOf(body, "fullName") != "" && TextOf(body, "idNumber") != ""
    ensures TextOf(body, "accountNumber") != "" && TextOf(body, "password") != ""
  {
    RegisterAcceptance(body);
  }

  /** Register as intended: the plain password goes to the model and the pre-save hook hashes it once. */
  method RegisterFixed(req: Request, nowMs: nat, isProd: bool, users: UserCollection, audit: AuditLog, auditOk: bool)
    returns (o: Outcome)
    requires users.Valid()
    modifies users, audit
    ensures users.Valid()
    ensures CsrfThenValidation(req, RegisterRules).Some? ==>
      o == CsrfThenValidation(req, RegisterRules).value && unchanged(users, audit)
    ensures Admitted(req, RegisterRules) && TextOf(req.body, "accountNumber") in old(users.byAccount) ==>
      o == Handled(Reply(400, MsgBody(AccountExistsMessage))) && unchanged(users, audit)
    ensures Admitted(req, RegisterRules) && TextOf(req.body, "accountNumber") !in old(users.byAccount) ==>
      var u := NewCustomer(req.body, UserId(old(users.nextId)), Hashed(Plain(TextOf(req.body, "password"))));
      && users.byAccount == old(users.byAccount)[u.accountNumber := u]
      && o == Handled(Registered(u, nowMs, isProd))
      && audit.entries == old(audit.entries) + (if auditOk then [EntryFor(Some(u.id), "User Registered", req, nowMs)] else [])
  {
    var gate := CsrfThenValidation(req, RegisterRules);
    if gate.Some? {
      return gate.value;
    }
    RegisterBodyComplete(req.body);
    var account := TextOf(req.body, "accountNumber");
    var existing := users.FindOne(account);
    if existing.Some? {
      return Handled(Reply(400, MsgBody(AccountExistsMessage)));
    }
    var saved := users.Save(Draft(TextOf(req.body, "fullName"), TextOf(req.body, "idNumber"), account,
      Plain(TextOf(req.body, "password")), Some("customer")));
    if saved.Err? {
      assert false;
      return Handled(Reply(500, MsgBody(RegisterErrorMessage)));
    }
    var u := saved.value;
    audit.LogAction(Some(u.id), "User Registered", req, nowMs, auditOk);
    o := Handled(Registered(u, nowMs, isProd));
  }

  // ---------------------------------------------------------------------
  // Login
  // ---------------------------------------------------------------------

  /** How a login attempt that got past the gates ends. */
  datatype LoginVerdict = UnknownAccount | WrongPassword | CompareRejected | LoginOk(id: UserId, role: Role)

  /**
   * Login as written: the document comes back without its password, so
   * `bcrypt.compare(password, undefined)` rejects for every existing account.
   */
  function LoginVerdictAsWritten(found: Option<UserView>, password: string): LoginVerdict {
    match found
    case None => UnknownAccount
    case Some(v) =>
      match BcryptCompare(password, None)
      case None => CompareRejected
      case Some(ok) => if ok then LoginOk(v.id, v.role) else WrongPassword
  }

  /**
   * Login as intended: the document is loaded with its password.  bcrypt
   * still rejects a candidate that is not a JSON string (`isString` false).
   */
  function LoginVerdictFixed(found: Option<User>, password: string, isString: bool): (v: LoginVerdict)
    ensures v.LoginOk? <==> found.Some? && isString && BcryptCompare(password, Some(found.value.password)) == Some(true)
    ensures v.LoginOk? ==> v.id == found.value.id && v.role == found.value.role
    ensures v.CompareRejected? <==> found.Some? && !isString
  {
    match found
    case None => UnknownAccount
    case Some(u) =>
      if !isString then CompareRejected
      else match BcryptCompare(password, Some(u.password))
        case None => CompareRejected
        case Some(ok) => if ok then LoginOk(u.id, u.role) else WrongPassword
  }

  /** auth.js:63-85: the answer for each verdict. */
  function LoginResponse(v: LoginVerdict, nowMs: nat, isProd: bool): (r: Response)
    ensures v.UnknownAccount? || v.WrongPassword? ==> r == Reply(401, MsgBody(InvalidCredentialsMessage))
    ensures v.CompareRejected? ==> r == Reply(500, MsgBody(LoginErrorMessage))
    ensures v.LoginOk? ==> r.status == 200 && r.body == LoginBody("Login successful", v.role)
    ensures v.LoginOk? ==> r.cookie == SetTokenCookie(Issue(v.id, v.role, nowMs), TokenCookieOptions(isProd, true))
  {
    match v
    case UnknownAccount => Reply(401, MsgBody(InvalidCredentialsMessage))
    case WrongPassword => Reply(401, MsgBody(InvalidCredentialsMessage))
    case CompareRejected => Reply(500, MsgBody(LoginErrorMessage))
    case LoginOk(id, role) =>
      Response(200, LoginBody("Login successful", role), SetTokenCookie(Issue(id, role, nowMs), TokenCookieOptions(isProd, true)), None)
  }

  /**
   * As written, login never succeeds: an unknown account gets 401 and every
   * existing account gets 500, which also tells the two apart.
   */
  lemma LoginAsWrittenNeverSucceeds(found: Option<UserView>, password: string, nowMs: nat, isProd: bool)
    ensures found.None? ==> LoginResponse(LoginVerdictAsWritten(found, password), nowMs, isProd) == Reply(401, MsgBody(InvalidCredentialsMessage))
    ensures found.Some? ==> LoginResponse(LoginVerdictAsWritten(found, password), nowMs, isProd) == Reply(500, MsgBody(LoginErrorMessage))
  {
  }

  /** With the fixed login, an unknown account and a wrong password get the identical answer. */
  lemma FixedLoginFailuresIndistinguishable(u: User, wrong: string, unknown: string, nowMs: nat, isProd: bool)
    requires BcryptCompare(wrong, Some(u.password)) == Some(false)
    ensures LoginResponse(LoginVerdictFixed(Some(u), wrong, true), nowMs, isProd)
         == LoginResponse(LoginVerdictFixed(None, unknown, true), nowMs, isProd)
  {
  }

  /**
   * A user stored by the register handler as written can never log in,
   * even with the fixed login: the stored hash is the hash of a hash.
   */
  lemma RegisteredAsWrittenCannotLogIn(body: Body, id: UserId, candidate: string)
    ensures LoginVerdictFixed(Some(NewCustomer(body, id, Hashed(Hashed(Plain(TextOf(body, "password")))))), candidate, true)
         == WrongPassword
  {
  }

  /** A user stored by the fixed register logs in with the fixed login using their password. */
  lemma RegisteredFixedLogsIn(body: Body, id: UserId)
    ensures LoginVerdictFixed(Some(NewCustomer(body, id, Hashed(Plain(TextOf(body, "password"))))), TextOf(body, "password"), true)
         == LoginOk(id, Customer)
  {
  }

  /** POST /login as written (auth.js:59-86). */
  method Login(req: Request, nowMs: nat, isProd: bool, users: UserCollection, audit: AuditLog, auditOk: bool)
    returns (o: Outcome)
    requires users.Valid()
    modifies audit
    ensures CsrfThenValidation(req, LoginRules).Some? ==>
      o == CsrfThenValidation(req, LoginRules).value && unchanged(audit)
    ensures Admitted(req, LoginRules) ==>
      var account := TextOf(req.body, "accountNumber");
      var found := if account in users.byAccount then Some(ViewOf(users.byAccount[account])) else None;
      && o == Handled(LoginResponse(LoginVerdictAsWritten(found, TextOf(req.body, "password")), nowMs, isProd))
      && unchanged(audit)
  {
    var gate := CsrfThenValidation(req, LoginRules);
    if gate.Some? {
      return gate.value;
    }
    var found := users.FindOne(TextOf(req.body, "accountNumber"));
    var verdict := LoginVerdictAsWritten(found, TextOf(req.body, "password"));
    // The verdict is never LoginOk, so the audit call of auth.js:79 is never reached.
    o := Handled(LoginResponse(verdict, nowMs, isProd));
  }

  /** Login as intended: the same handler with the password selected into the query result. */
  method LoginFixed(req: Request, nowMs: nat, isProd: bool, users: UserCollection, audit: AuditLog, auditOk: bool)
    returns (o: Outcome)
    requires users.Valid()
    modifies audit
    ensures CsrfThenValidation(req, LoginRules).Some? ==>
      o == CsrfThenValidation(req, LoginRules).value && unchanged(audit)
    ensures Admitted(req, LoginRules) ==>
      var account := TextOf(req.body, "accountNumber");
      var found := if account in users.byAccount then Some(users.byAccount[account]) else None;
      var verdict := LoginVerdictFixed(found, TextOf(req.body, "password"), IsStringField(req.body, "password"));
      && o == Handled(LoginResponse(verdict, nowMs, isProd))
      && audit.entries == old(audit.entries) +
           (if verdict.LoginOk? && auditOk then [EntryFor(Some(verdict.id), "User Logged In", req, nowMs)] else [])
  {
    var gate := CsrfThenValidation(req, LoginRules);
    if gate.Some? {
      return gate.value;
    }
    var found := users.FindOneWithPassword(TextOf(req.body, "accountNumber"));
    var verdict := LoginVerdictFixed(found, TextOf(req.body, "password"), IsStringField(req.body, "password"));
    if verdict.LoginOk? {
      audit.LogAction(Some(verdict.id), "User Logged In", req, nowMs, auditOk);
    }
    o := Handled(LoginResponse(verdict, nowMs, isProd));
  }

  // ---------------------------------------------------------------------
  // Logout
  // ---------------------------------------------------------------------

  /** The answer to a logout that got past both gates. */
  function LoggedOut(isProd: bool): (r: Response)
    ensures r.status == 200 && r.body == MsgBody("Logout successful")
    ensures r.cookie == ClearTokenCookie(TokenCookieOptions(isProd, false))
  {
    Response(200, MsgBody("Logout successful"), ClearTokenCookie(TokenCookieOptions(isProd, false)), None)
  }

  /**
   * POST /logout (auth.js:89-103): the session gate first, then csurf; the
   * cookie is cleared and the logout recorded under the token's user id,
   * which a verified token always carries.
   */
  method Logout(req: Request, nowMs: nat, isProd: bool, audit: AuditLog, gateAuditOk: bool, auditOk: bool)
    returns (o: Outcome)
    modifies audit
    ensures SessionGate(req.tokenCookie, nowMs).Stop? ==>
      o == Handled(SessionGate(req.tokenCookie, nowMs).response)
      && audit.entries == old(audit.entries) + GateEntries(req, nowMs, gateAuditOk)
    ensures SessionGate(req.tokenCookie, nowMs).Pass? && !req.csrfOk ==>
      o == Forwarded(CsrfError) && audit.entries == old(audit.entries)
    ensures SessionGate(req.tokenCookie, nowMs).Pass? && req.csrfOk ==>
      && o == Handled(LoggedOut(isProd))
      && audit.entries == old(audit.entries) +
           (if auditOk then [EntryFor(Some(req.tokenCookie.value.userId), "User Logged Out", req, nowMs)] else [])
  {
    var g := AuthenticateUser(req, nowMs, audit, gateAuditOk);
    if g.Stop? {
      return Handled(g.response);
    }
    if !req.csrfOk {
      return Forwarded(CsrfError);
    }
    audit.LogAction(Some(g.user.userId), "User Logged Out", req, nowMs, auditOk);
    o := Handled(LoggedOut(isProd));
  }
}
