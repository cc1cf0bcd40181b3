/**
 * backend/models/User.js: the user record, its schema rules (required
 * fields, role enum with default, unique account number, password hidden
 * from queries), the pre-save hashing hook and `comparePassword`; together
 * with the users collection those rules guard.
 *
 * bcrypt is modelled as a free constructor: `Hashed(x)` is the hash of `x`,
 * different from every other value, and `compare(c, h)` holds exactly when
 * `h` is the hash of the plain text `c`.  Salts are not modelled.
 */
module UserModel {
  import opened Wrappers

  /** A user's `_id`. */
  datatype UserId = UserId(n: nat)

  /** The role enum of User.js:10. */
  datatype Role = Customer | Admin

  function RoleName(r: Role): string {
    match r
    case Customer => "customer"
    case Admin => "admin"
  }

  /** The enum validator: only "customer" and "admin" are roles. */
  function ParseRole(s: string): (r: Option<Role>)
    ensures r.Some? <==> s == "customer" || s == "admin"
  {
    if s == "customer" then Some(Customer)
    else if s == "admin" then Some(Admin)
    else None
  }

  lemma RoleNameRoundTrip(r: Role, s: string)
    ensures ParseRole(RoleName(r)) == Some(r)
    ensures ParseRole(s).Some? ==> RoleName(ParseRole(s).value) == s
  {
  }

  /** What the password field holds: the plain text, or a bcrypt hash of something. */
  datatype Secret = Plain(text: string) | Hashed(of: Secret)

  /**
   * `bcrypt.compare(candidate, stored)`: None when the promise rejects,
   * which is what happens when `stored` is `undefined`.
   */
  function BcryptCompare(candidate: string, stored: Option<Secret>): (r: Option<bool>)
    ensures r.None? <==> stored.None?
  {
    match stored
    case None => None
    case Some(h) => Some(h == Hashed(Plain(candidate)))
  }

  /** A password hashed once matches exactly its own plain text. */
  lemma CompareHashedOnce(candidate: string, password: string)
    ensures BcryptCompare(candidate, Some(Hashed(Plain(password)))) == Some(candidate == password)
  {
  }

  /** A password hashed twice matches no plain text at all. */
  lemma CompareHashedTwice(candidate: string, password: string)
    ensures BcryptCompare(candidate, Some(Hashed(Hashed(Plain(password))))) == Some(false)
  {
  }

  /** A user document as stored. */
  datatype User = User(
    id: UserId,
    fullName: string,
    idNumber: string,
    accountNumber: string,
    password: Secret,
    role: Role)

  /**
   * A user document as a query returns it by default: `select: false`
   * (User.js:9) leaves the password out.
   */
  datatype UserView = UserView(
    id: UserId,
    fullName: string,
    idNumber: string,
    accountNumber: string,
    role: Role)

  function ViewOf(u: User): (v: UserView)
    ensures v.id == u.id && v.fullName == u.fullName && v.idNumber == u.idNumber
    ensures v.accountNumber == u.accountNumber && v.role == u.role
  {
    UserView(u.id, u.fullName, u.idNumber, u.accountNumber, u.role)
  }

  /** `comparePassword` (User.js:28-30), on a document loaded with its password. */
  function ComparePassword(u: User, candidate: string): (r: Option<bool>)
    ensures r.Some?
    ensures u.password.Hashed? && u.password.of.Plain? ==> r.value == (candidate == u.password.of.text)
  {
    BcryptCompare(candidate, Some(u.password))
  }

  /** `new User({...})`: the fields a caller supplies; "" stands for a missing string. */
  datatype Draft = Draft(
    fullName: string,
    idNumber: string,
    accountNumber: string,
    password: Secret,
    role: Option<string>)

  /** The schema validators: the four required fields are non-empty and a given role is in the enum. */
  predicate DraftValid(d: Draft) {
    && d.fullName != ""
    && d.idNumber != ""
    && d.accountNumber != ""
    && d.password != Plain("")
    && (d.role.None? || ParseRole(d.role.value).Some?)
  }

  /**
   * The pre-save hook (User.js:16-25): the password is hashed when it was
   * modified and kept as it is otherwise.
   */
  function PreSave(password: Secret, modified: bool): (r: Secret)
    ensures modified ==> r.Hashed? && r.of == password
    ensures !modified ==> r == password
  {
    if modified then Hashed(password) else password
  }

  /**
   * The document a valid draft becomes on its first save.  On a new
   * document every supplied path counts as modified, so the hook hashes the
   * password the draft carries; an absent role takes the default.
   */
  function Stored(d: Draft, id: UserId): (u: User)
    requires DraftValid(d)
    ensures u.id == id && u.fullName == d.fullName && u.idNumber == d.idNumber
    ensures u.accountNumber == d.accountNumber
    ensures u.password == Hashed(d.password)
    ensures d.role.None? ==> u.role == Customer
    ensures d.role.Some? ==> RoleName(u.role) == d.role.value
  {
    var role := if d.role.None? then Customer else ParseRole(d.role.value).value;
    User(id, d.fullName, d.idNumber, d.accountNumber, PreSave(d.password, true), role)
  }

  datatype SaveError = ValidationFailed | DuplicateKey

  /**
   * The users collection: documents keyed by account number, which the
   * unique index of User.js:8 makes a key, and the next `_id` to hand out.
   */
  class UserCollection {
    var byAccount: map<string, User>
    var nextId: nat

    /** Every document sits under its own account number, and ids are unique and already handed out. */
    ghost predicate Valid()
      reads this
    {
      && (forall a :: a in byAccount ==> byAccount[a].accountNumber == a && byAccount[a].id.n < nextId)
      && (forall a, b :: a in byAccount && b in byAccount && byAccount[a].id == byAccount[b].id ==> a == b)
    }

    constructor()
      ensures Valid() && byAccount == map[] && nextId == 0
    {
      byAccount := map[];
      nextId := 0;
    }

    /** `User.findOne({ accountNumber })`: the document without its password. */
    method FindOne(account: string) returns (r: Option<UserView>)
      requires Valid()
      ensures r.Some? <==> account in byAccount
      ensures r.Some? ==> r.value == ViewOf(byAccount[account]) && r.value.accountNumber == account
    {
      if account in byAccount {
        r := Some(ViewOf(byAccount[account]));
      } else {
        r := None;
      }
    }

    /** `User.findOne({ accountNumber }).select("+password")`: the whole document. */
    method FindOneWithPassword(account: string) returns (r: Option<User>)
      requires Valid()
      ensures r.Some? <==> account in byAccount
      ensures r.Some? ==> r.value == byAccount[account] && r.value.accountNumber == account
    {
      if account in byAccount {
        r := Some(byAccount[account]);
      } else {
        r := None;
      }
    }

    /**
     * `user.save()` of a new document: schema validation, the pre-save
     * hook, then the insert, which the unique index refuses for an account
     * number already present.  A refused save leaves the collection as it was.
     */
    method Save(d: Draft) returns (r: Result<User, SaveError>)
      requires Valid()
      modifies this
      ensures Valid()
      ensures !DraftValid(d) ==> r == Err(ValidationFailed)
      ensures DraftValid(d) && d.accountNumber in old(byAccount) ==> r == Err(DuplicateKey)
      ensures r.Err? ==> byAccount == old(byAccount) && nextId == old(nextId)
      ensures DraftValid(d) && d.accountNumber !in old(byAccount) ==>
        && r == Ok(Stored(d, UserId(old(nextId))))
        && byAccount == old(byAccount)[d.accountNumber := r.value]
        && nextId == old(nextId) + 1
    {
      if !DraftValid(d) {
        return Err(ValidationFailed);
      }
      if d.accountNumber in byAccount {
        return Err(DuplicateKey);
      }
      var u := Stored(d, UserId(nextId));
      byAccount := byAccount[d.accountNumber := u];
      nextId := nextId + 1;
      r := Ok(u);
    }
  }
}
