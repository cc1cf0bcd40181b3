/**
 * The session token that routes/auth.js signs and that middleware/auth.js
 * and the `authCookie` gate of routes/payments.js verify.
 *
 * A token is the payload `{ userId, role }` with the `exp` claim that
 * `expiresIn: "1h"` adds, plus whether its signature checks out against the
 * server secret.  jsonwebtoken itself is not modelled: signing gives a
 * token with a good signature, and anything else the client sends is a
 * token whose signature fails.
 */
module Session {
  import opened Wrappers
  import opened UserModel

  /** `expiresIn: "1h"`, in seconds. */
  const TokenLifetimeSeconds := 3600

  /** The cookie's `maxAge: 60 * 60 * 1000`, in milliseconds. */
  const CookieMaxAgeMs := 3600000

  datatype Token = Token(userId: UserId, role: Role, exp: int, signatureOk: bool)

  /** `req.user` as the gates set it: exactly the two payload fields. */
  datatype ReqUser = ReqUser(userId: UserId, role: Role)

  /**
   * `jwt.sign({ userId, role }, secret, { expiresIn: "1h" })` at `nowMs`:
   * `iat` is the current time in whole seconds and `exp` one hour later.
   */
  function Issue(userId: UserId, role: Role, nowMs: nat): (t: Token)
    ensures t.signatureOk && t.userId == userId && t.role == role
    ensures t.exp * 1000 <= nowMs + CookieMaxAgeMs < t.exp * 1000 + 1000
  {
    Token(userId, role, nowMs / 1000 + TokenLifetimeSeconds, true)
  }

  /**
   * `jwt.verify(token, secret)` succeeds: the signature holds and the
   * current time in whole seconds is before `exp`.
   */
  predicate Verifies(t: Token, nowMs: nat) {
    t.signatureOk && nowMs / 1000 < t.exp
  }

  /** What both session gates decide from the token cookie (empty or absent is `None`). */
  datatype AuthDecision = NoToken | BadToken | Accepted(user: ReqUser)

  const NoTokenMessage := "No token, authorization denied"
  const BadTokenMessage := "Token is not valid"

  /** middleware/auth.js:7-21 and routes/payments.js:13-23, without their side effects. */
  function Authenticate(cookie: Option<Token>, nowMs: nat): (d: AuthDecision)
    ensures d.NoToken? <==> cookie.None?
    ensures d.BadToken? <==> cookie.Some? && !Verifies(cookie.value, nowMs)
    ensures d.Accepted? ==> d.user == ReqUser(cookie.value.userId, cookie.value.role)
  {
    match cookie
    case None => NoToken
    case Some(t) => if Verifies(t, nowMs) then Accepted(ReqUser(t.userId, t.role)) else BadToken
  }

  /**
   * A token issued at `issuedAt` is accepted, with its own user and role,
   * for at least 3599 seconds.
   */
  lemma {:induction false} IssuedTokenAcceptedWithinTheHour(userId: UserId, role: Role, issuedAt: nat, now: nat)
    requires issuedAt <= now <= issuedAt + 3599000
    ensures Authenticate(Some(Issue(userId, role, issuedAt)), now) == Accepted(ReqUser(userId, role))
  {
    assert (issuedAt + 3599000) / 1000 == issuedAt / 1000 + 3599;
  }

  /** From the moment the cookie's `maxAge` runs out, the token is refused as well. */
  lemma {:induction false} IssuedTokenRejectedAfterTheHour(userId: UserId, role: Role, issuedAt: nat, now: nat)
    requires now >= issuedAt + CookieMaxAgeMs
    ensures Authenticate(Some(Issue(userId, role, issuedAt)), now) == BadToken
  {
    assert (issuedAt + CookieMaxAgeMs) / 1000 == issuedAt / 1000 + 3600;
  }

  /** A token whose signature fails is refused whatever its payload claims. */
  lemma ForgedTokenRejected(t: Token, now: nat)
    requires !t.signatureOk
    ensures Authenticate(Some(t), now) == BadToken
  {
  }
}
