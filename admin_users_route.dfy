/**
 * `/api/admin/users`: the admin's user list and user creation. Both answer 401
 * to a caller `checkAdminPermission` refuses. `GET` returns every user without the
 * password hash, with the permission and isActive fallbacks; `POST` creates an
 * approved user from the submitted fields.
 */
module AdminUsersRoute {
  import opened Wrappers
  import opened Text
  import opened Http
  import opened Permissions
  import opened UserModel
  import opened Store
  import opened Auth
  import opened CheckPermissions

  const MissingFields := "Pflichtfelder: email, firstName, lastName, password"
  const EmailInUse := "Email bereits vergeben"
  const ServerError := "Interner Serverfehler"

  /** A user as the replies show it: every stored field but the password hash. */
  datatype PublicUser = PublicUser(id: nat, email: string, firstName: string, lastName: string, role: Option<Role>,
                                   approved: Option<bool>, isActive: Option<bool>, permissions: Option<Flags>,
                                   lastLogin: Option<int>)

  /** The record without its password: `const { password, ...userData } = ...`. */
  function Redacted(u: UserRecord): PublicUser {
    PublicUser(u.id, u.email, u.firstName, u.lastName, u.role, u.approved, u.isActive, u.permissions, u.lastLogin)
  }

  /** The 401 reply to a refused caller: the check's message, or 'Unauthorized'. */
  function RefusalMessage(token: Option<Claims>): string {
    CheckAdminPermission(token).message.GetOr("Unauthorized")
  }

  datatype ListReply = ListRefused(status: Status, error: string) | Listed(users: seq<PublicUser>)

  /** One entry of the list: the permission fallback, and isActive true where missing. */
  function ListEntry(u: UserRecord): PublicUser {
    Redacted(u).(permissions := Some(Effective(u.permissions, u.role)), isActive := Some(u.isActive.GetOr(true)))
  }

  /** `GET /api/admin/users`: reads the collection and changes nothing. */
  function ListUsers(users: seq<UserRecord>, token: Option<Claims>): ListReply {
    if !CheckAdminPermission(token).authorized then ListRefused(Unauthorized, RefusalMessage(token))
    else Listed(seq(|users|, i requires 0 <= i < |users| => ListEntry(users[i])))
  }

  /** The `POST` body; `role` is any string the caller sent. */
  datatype CreateRequest = CreateRequest(firstName: Option<string>, lastName: Option<string>, email: Option<string>,
                                         role: Option<string>, password: Option<string>, permissions: Option<Flags>,
                                         isActive: Option<bool>)

  datatype CreateReply = CreateRefused(status: Status, error: string) | Added(user: PublicUser)

  datatype CreateOutcome = CreateOutcome(users: seq<UserRecord>, nextId: nat, reply: CreateReply)

  /** `!email || !firstName || !lastName || !password`. */
  predicate Incomplete(req: CreateRequest) {
    !Present(req.email) || !Present(req.firstName) || !Present(req.lastName) || !Present(req.password)
  }

  /** `role || 'user'`. */
  function RoleName(req: CreateRequest): string {
    if Present(req.role) then req.role.value else "user"
  }

  /** The flags the handler passes: all six for a submitted 'admin', else the submitted ones or the default. */
  function InitialFlags(req: CreateRequest): Flags {
    if req.role == Some("admin") then AllGranted else req.permissions.GetOr(DefaultPermissions)
  }

  /** `new User({...})` of the handler, with `role` already known to be one of the enum's values. */
  function Candidate(req: CreateRequest, r: Role, id: nat, hash: string -> string): UserRecord
    requires !Incomplete(req)
  {
    NewUser(id, req.email.value, hash(req.password.value), req.firstName.value, req.lastName.value,
            Some(r), Some(true), Some(req.isActive.GetOr(true)), Some(InitialFlags(req)))
  }

  /** The effect of `POST` on the users collection and the id source. */
  function CreateResult(users: seq<UserRecord>, nextId: nat, token: Option<Claims>, req: CreateRequest,
                        hash: string -> string): CreateOutcome {
    if !CheckAdminPermission(token).authorized then CreateOutcome(users, nextId, CreateRefused(Unauthorized, RefusalMessage(token)))
    else if Incomplete(req) then CreateOutcome(users, nextId, CreateRefused(BadRequest, MissingFields))
    else if EmailTaken(users, EmailKey(req.email.value)) then CreateOutcome(users, nextId, CreateRefused(BadRequest, EmailInUse))
    else MakeResult(users, nextId, req, hash)
  }

  /** The part after the checks: build the document with the next id, then save it. */
  function MakeResult(users: seq<UserRecord>, nextId: nat, req: CreateRequest, hash: string -> string): CreateOutcome
    requires !Incomplete(req)
  {
    var r := ParseRole(RoleName(req));
    // A role outside the enum fails the schema's validator on save.
    if r.None? then CreateOutcome(users, nextId + 1, CreateRefused(InternalError, ServerError))
    else InsertResult(users, nextId, Candidate(req, r.value, nextId, hash))
  }

  /** `save()` of the new user and the 201 reply. */
  function InsertResult(users: seq<UserRecord>, nextId: nat, u: UserRecord): CreateOutcome {
    var v := PreSaved(u);
    if !SaveOk(users, v) then CreateOutcome(users, nextId + 1, CreateRefused(InternalError, ServerError))
    else CreateOutcome(users + [v], nextId + 1, Added(Redacted(v)))
  }

  /** `POST /api/admin/users`. */
  method Create(db: Database, token: Option<Claims>, req: CreateRequest, hash: string -> string) returns (reply: CreateReply)
    requires db.Valid()
    modifies db
    ensures db.Valid()
    ensures var o := CreateResult(old(db.users), old(db.nextId), token, req, hash);
      db.users == o.users && db.nextId == o.nextId && reply == o.reply
    ensures db.pending == old(db.pending) && db.campaigns == old(db.campaigns)
  {
    var authResult := CheckAdminPermission(token);
    if !authResult.authorized {
      return CreateRefused(Unauthorized, authResult.message.GetOr("Unauthorized"));
    }
    if !Present(req.email) || !Present(req.firstName) || !Present(req.lastName) || !Present(req.password) {
      return CreateRefused(BadRequest, MissingFields);
    }
    EmailKeyOfLower(req.email.value);
    if EmailTaken(db.users, EmailKey(ToLower(req.email.value))) {
      return CreateRefused(BadRequest, EmailInUse);
    }
    reply := Make(db, req, hash);
  }

  /** Hashing, the new document and its save. */
  method Make(db: Database, req: CreateRequest, hash: string -> string) returns (reply: CreateReply)
    requires db.Valid() && !Incomplete(req)
    modifies db
    ensures db.Valid()
    ensures var o := MakeResult(old(db.users), old(db.nextId), req, hash);
      db.users == o.users && db.nextId == o.nextId && reply == o.reply
    ensures db.pending == old(db.pending) && db.campaigns == old(db.campaigns)
  {
    var hashed := hash(req.password.value);
    var id := db.NewId();
    var role := ParseRole(if Present(req.role) then req.role.value else "user");
    if role.None? {
      return CreateRefused(InternalError, ServerError);
    }
    reply := Build(db, req, role.value, id, hashed, hash);
  }

  /** `new User({...})` with the fresh id and the hash, then its save. */
  method Build(db: Database, req: CreateRequest, r: Role, id: nat, hashed: string, hash: string -> string) returns (reply: CreateReply)
    requires db.Valid() && !Incomplete(req) && hashed == hash(req.password.value)
    requires id < db.nextId && forall i :: 0 <= i < |db.users| ==> db.users[i].id != id
    modifies db
    ensures db.Valid()
    ensures var o := InsertResult(old(db.users), id, Candidate(req, r, id, hash));
      db.users == o.users && reply == o.reply
    ensures db.nextId == old(db.nextId) && db.pending == old(db.pending) && db.campaigns == old(db.campaigns)
  {
    var permissions := if req.role == Some("admin") then AllGranted else req.permissions.GetOr(DefaultPermissions);
    // `email.toLowerCase().trim()`, which the schema's setters leave as it is.
    var email := Trim(ToLower(req.email.value));
    EmailKeyIdempotent(req.email.value);
    var u := NewUser(id, email, hashed, req.firstName.value, req.lastName.value,
                     Some(r), Some(true), Some(req.isActive.GetOr(true)), Some(permissions));
    assert u == Candidate(req, r, id, hash);
    var doc := new UserDoc(u);
    reply := Insert(db, doc.Record());
  }

  /** The final `save()` of a document with a fresh id. */
  method Insert(db: Database, u: UserRecord) returns (reply: CreateReply)
    requires db.Valid() && u.id < db.nextId
    requires forall i :: 0 <= i < |db.users| ==> db.users[i].id != u.id
    modifies db
    ensures db.Valid()
    ensures var o := InsertResult(old(db.users), u.id, u);
      db.users == o.users && reply == o.reply
    ensures db.nextId == old(db.nextId)
    ensures db.pending == old(db.pending) && db.campaigns == old(db.campaigns)
  {
    var saved := db.SaveUser(u);
    if !saved {
      return CreateRefused(InternalError, ServerError);
    }
    return Added(Redacted(PreSaved(u)));
  }

  // ----- Properties -----

  /** A caller the admin check refuses gets 401 from both handlers, and nothing changes. */
  lemma RefusedCaller(users: seq<UserRecord>, nextId: nat, token: Option<Claims>, req: CreateRequest, hash: string -> string)
    requires !CheckAdminPermission(token).authorized
    ensures ListUsers(users, token) == ListRefused(Unauthorized, RefusalMessage(token))
    ensures CreateResult(users, nextId, token, req, hash) == CreateOutcome(users, nextId, CreateRefused(Unauthorized, RefusalMessage(token)))
    ensures RefusalMessage(token) in {NotSignedIn, Deactivated, AdminRequired}
  {
  }

  /**
   * The list has one entry per stored user, in order, without the password hash; the
   * permissions are the stored flags or the role's fallback, and isActive is true where missing.
   */
  lemma ListShape(users: seq<UserRecord>, token: Option<Claims>)
    requires CheckAdminPermission(token).authorized
    ensures ListUsers(users, token).Listed?
    ensures var l := ListUsers(users, token).users;
      && |l| == |users|
      && forall i :: 0 <= i < |users| ==>
           && l[i].id == users[i].id && l[i].email == users[i].email
           && l[i].firstName == users[i].firstName && l[i].lastName == users[i].lastName
           && l[i].role == users[i].role && l[i].approved == users[i].approved && l[i].lastLogin == users[i].lastLogin
           && l[i].isActive == Some(users[i].isActive.GetOr(true))
           && l[i].permissions == Some(if users[i].permissions.Some? then users[i].permissions.value
                                       else if users[i].role == Some(RoleAdmin) then AllGranted else MarketingOnly)
  {
  }

  /** For an admin, a missing field gives 400, and an address a user already holds gives 400; neither creates a user. */
  lemma CreateRefusals(users: seq<UserRecord>, nextId: nat, token: Option<Claims>, req: CreateRequest, hash: string -> string)
    requires CheckAdminPermission(token).authorized
    ensures Incomplete(req) ==>
      CreateResult(users, nextId, token, req, hash) == CreateOutcome(users, nextId, CreateRefused(BadRequest, MissingFields))
    ensures !Incomplete(req) && EmailTaken(users, EmailKey(req.email.value)) ==>
      CreateResult(users, nextId, token, req, hash) == CreateOutcome(users, nextId, CreateRefused(BadRequest, EmailInUse))
    ensures CreateResult(users, nextId, token, req, hash).users != users ==>
      !Incomplete(req) && !EmailTaken(users, EmailKey(req.email.value))
  {
  }

  /**
   * A created user is appended with the next id, approved, with role 'user' unless another
   * is sent, active unless sent otherwise, trimmed names, the lower-cased trimmed address and
   * the hash of the password; an admin holds all six flags, anyone else the submitted flags or
   * the default. The reply is the stored record without its hash.
   */
  lemma CreatedUser(users: seq<UserRecord>, nextId: nat, token: Option<Claims>, req: CreateRequest, hash: string -> string)
    requires CreateResult(users, nextId, token, req, hash).reply.Added?
    ensures !Incomplete(req)
    ensures var o := CreateResult(users, nextId, token, req, hash);
      && |o.users| == |users| + 1 && o.users[..|users|] == users && o.nextId == nextId + 1
      && var u := o.users[|users|];
      && o.reply.user == Redacted(u)
      && u.id == nextId && u.approved == Some(true)
      && u.role == ParseRole(RoleName(req)) && (!Present(req.role) ==> u.role == Some(RoleUser))
      && u.isActive == Some(req.isActive.GetOr(true))
      && u.firstName == Trim(req.firstName.value) && u.lastName == Trim(req.lastName.value)
      && u.email == EmailKey(req.email.value) && EmailKey(u.email) == u.email
      && u.password == hash(req.password.value)
      && (u.role == Some(RoleAdmin) ==> u.permissions == Some(AllGranted))
      && (u.role != Some(RoleAdmin) ==> u.permissions == Some(req.permissions.GetOr(DefaultPermissions)))
  {
    var r := ParseRole(RoleName(req));
    CandidateFacts(req, r.value, nextId, hash);
    EmailKeyIdempotent(req.email.value);
  }

  /** What the saved form of the handler's document holds. */
  lemma CandidateFacts(req: CreateRequest, r: Role, id: nat, hash: string -> string)
    requires !Incomplete(req) && ParseRole(RoleName(req)) == Some(r)
    ensures var u := PreSaved(Candidate(req, r, id, hash));
      && u.id == id && u.approved == Some(true)
      && u.role == Some(r) && (!Present(req.role) ==> r == RoleUser)
      && u.isActive == Some(req.isActive.GetOr(true))
      && u.firstName == Trim(req.firstName.value) && u.lastName == Trim(req.lastName.value)
      && u.email == EmailKey(req.email.value)
      && u.password == hash(req.password.value)
      && (r == RoleAdmin ==> u.permissions == Some(AllGranted))
      && (r != RoleAdmin ==> u.permissions == Some(req.permissions.GetOr(DefaultPermissions)))
  {
  }
}
