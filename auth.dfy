/**
 * The credentials sign-in of the NextAuth configuration: `authorize` with its
 * fixed order of failures and the `lastLogin` write, and the `jwt` and
 * `session` callbacks that carry the signed-in user into the token and the session.
 */
module Auth {
  import opened Wrappers
  import opened Text
  import opened Permissions
  import opened UserModel
  import opened Store

  datatype Credentials = Credentials(email: Option<string>, password: Option<string>)

  /** The errors `authorize` throws, in the order it checks for them. */
  datatype AuthError =
    | MissingCredentials
    | UserNotFound
    | InvalidPassword
    | NotApproved
    | AccountDeactivated
    /** The `lastLogin` save was refused by the store; its error propagates. */
    | SaveFailed
  {
    /** The error message, which the login page receives as the error code. */
    function Code(): string {
      match this
      case MissingCredentials => "MissingCredentials"
      case UserNotFound => "UserNotFound"
      case InvalidPassword => "InvalidPassword"
      case NotApproved => "NOT_APPROVED"
      case AccountDeactivated => "ACCOUNT_DEACTIVATED"
      case SaveFailed => "SaveFailed"
    }
  }

  /** The user object `authorize` returns. */
  datatype SignedIn = SignedIn(id: nat, email: string, role: Option<Role>, firstName: string, lastName: string,
                               permissions: Flags, isActive: bool)

  datatype AuthResult = Refused(error: AuthError) | Authorized(user: SignedIn)

  datatype AuthOutcome = AuthOutcome(users: seq<UserRecord>, result: AuthResult)

  /** The user document after a successful sign-in at `now`, as the pre-save hook leaves it. */
  function LoggedIn(u: UserRecord, now: int): UserRecord {
    PreSaved(u.(lastLogin := Some(now)))
  }

  /**
   * The returned user: the document's fields, the permission fallback, and `isActive ?? true`.
   * On a loaded document both fallbacks are written but never apply (`HydratedFallbacksUnused`).
   */
  function SignedInFrom(u: UserRecord): SignedIn {
    SignedIn(u.id, u.email, u.role, u.firstName, u.lastName, Effective(u.permissions, u.role), u.isActive.GetOr(true))
  }

  /**
   * `authorize(credentials)` against the users collection. `matches(plain, hash)` is
   * the password comparison; the lookup key is the lower-cased, trimmed address. The
   * found document is loaded with the schema defaults filled in.
   */
  function AuthorizeOutcome(users: seq<UserRecord>, creds: Credentials, matches: (string, string) -> bool, now: int): (o: AuthOutcome)
    ensures |o.users| == |users|
    ensures o.result.Authorized? ==> Present(creds.email) && Present(creds.password) && EmailTaken(users, EmailKey(creds.email.value))
  {
    if !Present(creds.email) || !Present(creds.password) then AuthOutcome(users, Refused(MissingCredentials))
    else
      var i := FindUser(users, EmailKey(creds.email.value));
      if i < 0 then AuthOutcome(users, Refused(UserNotFound))
      else
        var u := Hydrated(users[i]);
        if !matches(creds.password.value, u.password) then AuthOutcome(users, Refused(InvalidPassword))
        else if u.approved != Some(true) then AuthOutcome(users, Refused(NotApproved))
        else if u.isActive != Some(true) then AuthOutcome(users, Refused(AccountDeactivated))
        else AdmitOutcome(users, u, now)
  }

  /** The part after every check passed: save `lastLogin`, then return the user. */
  function AdmitOutcome(users: seq<UserRecord>, u: UserRecord, now: int): (o: AuthOutcome)
    ensures |o.users| == |users|
  {
    var v := LoggedIn(u, now);
    if !SaveOk(users, v) then AuthOutcome(users, Refused(SaveFailed))
    else AuthOutcome(ReplaceUser(users, v), Authorized(SignedInFrom(v)))
  }

  /** `authorize`, step by step against the collection. */
  method Authorize(db: Database, creds: Credentials, matches: (string, string) -> bool, now: int) returns (result: AuthResult)
    requires db.Valid()
    modifies db
    ensures db.Valid()
    ensures var o := AuthorizeOutcome(old(db.users), creds, matches, now);
      db.users == o.users && result == o.result
    ensures db.pending == old(db.pending) && db.campaigns == old(db.campaigns) && db.nextId == old(db.nextId)
  {
    if !Present(creds.email) || !Present(creds.password) {
      return Refused(MissingCredentials);
    }
    EmailKeyOfLower(creds.email.value);
    var i := FindUser(db.users, EmailKey(ToLower(creds.email.value)));
    if i < 0 {
      return Refused(UserNotFound);
    }
    var doc := new UserDoc(Hydrated(db.users[i]));
    if !matches(creds.password.value, doc.password) {
      return Refused(InvalidPassword);
    }
    if doc.approved != Some(true) {
      return Refused(NotApproved);
    }
    if doc.isActive != Some(true) {
      return Refused(AccountDeactivated);
    }
    doc.lastLogin := Some(now);
    doc.PreSave();
    PreSaveIdempotent(Hydrated(db.users[i]).(lastLogin := Some(now)));
    var saved := db.SaveUser(doc.Record());
    if !saved {
      return Refused(SaveFailed);
    }
    return Authorized(SignedInFrom(doc.Record()));
  }

  // ----- Properties of `authorize` -----

  /** `authorize` first refuses missing credentials; nothing else is refused with that error. */
  lemma MissingCredentialsFirst(users: seq<UserRecord>, creds: Credentials, matches: (string, string) -> bool, now: int)
    ensures AuthorizeOutcome(users, creds, matches, now).result == Refused(MissingCredentials)
        <==> !Present(creds.email) || !Present(creds.password)
  {
    if Present(creds.email) && Present(creds.password) {
      var i := FindUser(users, EmailKey(creds.email.value));
      if i >= 0 {
        assert AdmitOutcome(users, Hydrated(users[i]), now).result != Refused(MissingCredentials);
      }
    }
  }

  /** With credentials given, the next refusal is an address no user holds. */
  lemma UnknownAddressSecond(users: seq<UserRecord>, creds: Credentials, matches: (string, string) -> bool, now: int)
    requires Present(creds.email) && Present(creds.password)
    ensures AuthorizeOutcome(users, creds, matches, now).result == Refused(UserNotFound)
        <==> !EmailTaken(users, EmailKey(creds.email.value))
  {
    var i := FindUser(users, EmailKey(creds.email.value));
    if i >= 0 {
      assert AdmitOutcome(users, Hydrated(users[i]), now).result != Refused(UserNotFound);
    }
  }

  /** Every refusal leaves the collection as it was, so `lastLogin` is written only on success. */
  lemma RefusalWritesNothing(users: seq<UserRecord>, creds: Credentials, matches: (string, string) -> bool, now: int)
    requires AuthorizeOutcome(users, creds, matches, now).result.Refused?
    ensures AuthorizeOutcome(users, creds, matches, now).users == users
  {
    if Present(creds.email) && Present(creds.password) {
      var i := FindUser(users, EmailKey(creds.email.value));
      if i >= 0 && matches(creds.password.value, users[i].password) && users[i].approved == Some(true) && users[i].isActive != Some(false) {
        var u := Hydrated(users[i]);
        if users[i].isActive.Some? {
          var active := users[i].isActive.value;
          assert users[i].isActive == Some(active);
        }
        assert u.password == users[i].password && u.approved == Some(true) && u.isActive == Some(true);
        assert AuthorizeOutcome(users, creds, matches, now) == AdmitOutcome(users, u, now);
      }
    }
  }

  /**
   * For a known address: a wrong password, then an unapproved account, then a deactivated one.
   * A record without `approved` is unapproved, and one without `isActive` is active.
   */
  lemma LaterFailures(users: seq<UserRecord>, creds: Credentials, matches: (string, string) -> bool, now: int)
    requires Present(creds.email) && Present(creds.password) && EmailTaken(users, EmailKey(creds.email.value))
    ensures var u := users[FindUser(users, EmailKey(creds.email.value))];
      var o := AuthorizeOutcome(users, creds, matches, now);
      && (o.result == Refused(InvalidPassword) <==> !matches(creds.password.value, u.password))
      && (o.result == Refused(NotApproved) <==> matches(creds.password.value, u.password) && u.approved != Some(true))
      && (o.result == Refused(AccountDeactivated) <==>
            matches(creds.password.value, u.password) && u.approved == Some(true) && u.isActive == Some(false))
  {
    var u := users[FindUser(users, EmailKey(creds.email.value))];
    var h := Hydrated(u);
    assert h.password == u.password;
    assert h.approved == Some(true) <==> u.approved == Some(true);
    assert h.isActive != Some(true) <==> u.isActive == Some(false) by {
      if u.isActive.Some? {
        assert h.isActive == u.isActive;
        if u.isActive.value { assert u.isActive == Some(true); } else { assert u.isActive == Some(false); }
      }
    }
    var admitted := AdmitOutcome(users, h, now).result;
    assert admitted == Refused(SaveFailed) || admitted.Authorized?;
  }

  /**
   * A successful sign-in finds the user by the lower-cased address, writes `lastLogin := now`
   * to that user only, together with the defaults the load filled in, and returns its id,
   * address, role ('user' when none is stored) and names. The returned permissions are all
   * six for an admin (the pre-save hook runs on the document before they are read) and the
   * stored ones for anyone else, none at all when none are stored; the returned `isActive`
   * is always true.
   */
  lemma SuccessfulSignIn(users: seq<UserRecord>, creds: Credentials, matches: (string, string) -> bool, now: int)
    requires UserIdsUnique(users)
    requires AuthorizeOutcome(users, creds, matches, now).result.Authorized?
    ensures Present(creds.email) && Present(creds.password)
    ensures var i := FindUser(users, EmailKey(ToLower(creds.email.value)));
      && 0 <= i < |users|
      && var u := users[i];
      var o := AuthorizeOutcome(users, creds, matches, now);
      var s := o.result.user;
      && matches(creds.password.value, u.password) && u.approved == Some(true) && u.isActive != Some(false)
      && o.users == users[i := o.users[i]] && o.users[i].lastLogin == Some(now)
      && o.users[i].id == u.id && o.users[i].email == u.email && o.users[i].password == u.password
      && o.users[i].role == s.role && o.users[i].approved == Some(true) && o.users[i].isActive == Some(true)
      && o.users[i].permissions == Some(s.permissions)
      && s.id == u.id && s.email == u.email && s.role == Some(u.role.GetOr(RoleUser))
      && s.firstName == u.firstName && s.lastName == u.lastName
      && s.isActive
      && (u.role == Some(RoleAdmin) ==> s.permissions == AllGranted)
      && (u.role != Some(RoleAdmin) && u.permissions.Some? ==> s.permissions == u.permissions.value)
      && (u.role != Some(RoleAdmin) && u.permissions.None? ==> forall p :: !s.permissions.Get(p))
  {
    EmailKeyOfLower(creds.email.value);
    var i := FindUser(users, EmailKey(creds.email.value));
    var u := users[i];
    var h := Hydrated(u);
    var v := LoggedIn(h, now);
    assert matches(creds.password.value, u.password) && h.approved == Some(true) && h.isActive == Some(true);
    if u.isActive.Some? { assert h.isActive == u.isActive; }
    assert AuthorizeOutcome(users, creds, matches, now) == AdmitOutcome(users, h, now);
    assert SaveOk(users, v);
    ReplaceUserAtIndex(users, i, v);
    assert AuthorizeOutcome(users, creds, matches, now) == AuthOutcome(users[i := v], Authorized(SignedInFrom(v)));
  }

  // ----- The token and the session -----

  /**
   * The token claims, and equally the fields of `session.user`: NextAuth's own claims
   * are left out, so every field here is one the callbacks write.
   */
  datatype Claims = Claims(id: Option<nat>, email: Option<string>, role: Option<Role>,
                           firstName: Option<string>, lastName: Option<string>, name: Option<string>,
                           permissions: Option<Flags>, isActive: Option<bool>)

  /** The `jwt` callback: on sign-in the user's fields go into the token; on later calls the token is returned as it is. */
  function Jwt(token: Claims, user: Option<SignedIn>): (t: Claims)
    ensures user.None? ==> t == token
  {
    match user
    case None => token
    case Some(u) =>
      token.(id := Some(u.id), email := Some(u.email), role := u.role, firstName := Some(u.firstName),
             lastName := Some(u.lastName), name := Some(u.firstName + " " + u.lastName),
             permissions := Some(u.permissions), isActive := Some(u.isActive))
  }

  /** The token issued at sign-in holds every field of the user, the name joined with one space. */
  lemma JwtAtSignIn(token: Claims, u: SignedIn)
    ensures var t := Jwt(token, Some(u));
      && t.id == Some(u.id) && t.email == Some(u.email) && t.role == u.role
      && t.firstName == Some(u.firstName) && t.lastName == Some(u.lastName)
      && t.permissions == Some(u.permissions) && t.isActive == Some(u.isActive)
      && t.name.Some? && |t.name.value| == |u.firstName| + 1 + |u.lastName|
      && t.name.value[..|u.firstName|] == u.firstName && t.name.value[|u.firstName|] == ' '
      && t.name.value[|u.firstName| + 1..] == u.lastName
    ensures Jwt(Jwt(token, Some(u)), None) == Jwt(token, Some(u))
  {
  }

  /** `session.user`, whose fields the `session` callback overwrites in place. */
  class SessionUser {
    var id: Option<nat>
    var email: Option<string>
    var role: Option<Role>
    var firstName: Option<string>
    var lastName: Option<string>
    var name: Option<string>
    var permissions: Option<Flags>
    var isActive: Option<bool>

    function Record(): Claims
      reads this
    {
      Claims(id, email, role, firstName, lastName, name, permissions, isActive)
    }

    constructor (c: Claims)
      ensures Record() == c
    {
      id, email, role, firstName, lastName := c.id, c.email, c.role, c.firstName, c.lastName;
      name, permissions, isActive := c.name, c.permissions, c.isActive;
    }

    /** The body of the `session` callback for a present token: eight field copies. */
    method CopyFrom(token: Claims)
      modifies this
      ensures Record() == token
    {
      id := token.id;
      role := token.role;
      email := token.email;
      firstName := token.firstName;
      lastName := token.lastName;
      name := token.name;
      permissions := token.permissions;
      isActive := token.isActive;
    }
  }

  /** The `session` callback: copies the token into `session.user` when both exist, else leaves the session alone. */
  method SessionCallback(user: SessionUser?, token: Option<Claims>)
    modifies user
    ensures user != null && token.Some? ==> user.Record() == token.value
    ensures user != null && token.None? ==> user.Record() == old(user.Record())
  {
    if token.Some? && user != null {
      user.CopyFrom(token.value);
    }
  }
}
