/**
 * `/api/user`: the signed-in user's own profile. `GET` shapes the stored record
 * with fallbacks for fields old records lack; `PUT` loads the caller's document
 * (the schema defaults filled in), assigns the supplied fields one by one, where
 * only an admin may change the address, role, approval and permissions, and then saves.
 */
module UserRoute {
  import opened Wrappers
  import opened Text
  import opened Http
  import opened Permissions
  import opened UserModel
  import opened Store
  import opened Auth

  const NotAuthorized := "Nicht autorisiert"
  const UnknownUser := "Benutzer nicht gefunden"
  const EmailTakenMessage := "Email ist bereits vergeben"
  const ServerError := "Interner Serverfehler"

  /** The `GET` body. */
  datatype Profile = Profile(id: nat, firstName: string, lastName: string, email: string, role: Role,
                             approved: bool, isActive: bool, permissions: Flags, lastLogin: Option<int>)

  datatype GetReply = GetRefused(status: Status, error: string) | Found(profile: Profile)

  /** `!session || !session.user?.email`. */
  predicate SignedOut(session: Option<Claims>) {
    session.None? || !Present(session.value.email)
  }

  /** The record `GET` returns: role 'user', approved false and isActive true where missing, and the permission fallback. */
  function ProfileOf(u: UserRecord): Profile {
    Profile(u.id, u.firstName, u.lastName, u.email, u.role.GetOr(RoleUser), u.approved.GetOr(false),
            u.isActive.GetOr(true), Effective(u.permissions, u.role), u.lastLogin)
  }

  /** `GET /api/user`: looks the session's address up and reads nothing else. */
  function Get(users: seq<UserRecord>, session: Option<Claims>): GetReply {
    if SignedOut(session) then GetRefused(Unauthorized, NotAuthorized)
    else
      var i := FindUser(users, EmailKey(session.value.email.value));
      if i < 0 then GetRefused(NotFound, UnknownUser) else Found(ProfileOf(users[i]))
  }

  /** The `PUT` body; `role` is any string the caller sent. */
  datatype PutRequest = PutRequest(firstName: Option<string>, lastName: Option<string>, email: Option<string>,
                                   role: Option<string>, password: Option<string>, approved: Option<bool>,
                                   permissions: Option<Flags>)

  datatype PutReply = PutRefused(status: Status, error: string) | Updated

  datatype PutOutcome = PutOutcome(users: seq<UserRecord>, reply: PutReply)

  /** Another user already holds `key`: `findOne({ email, _id: { $ne: id } })`. */
  predicate TakenByOther(users: seq<UserRecord>, key: string, id: nat) {
    exists j :: 0 <= j < |users| && users[j].email == key && users[j].id != id
  }

  /** `password && password.trim() !== ''`. */
  predicate NewPassword(req: PutRequest) {
    req.password.Some? && Trim(req.password.value) != ""
  }

  /** An admin sent a role the schema's enum does not contain, which makes the save fail. */
  predicate BadRole(isAdmin: bool, req: PutRequest) {
    isAdmin && req.role.Some? && ParseRole(req.role.value).None?
  }

  /** The document after the handler's assignments, before `save()`: names, then the admin's fields, then the password. */
  function Edited(u: UserRecord, req: PutRequest, isAdmin: bool, hash: string -> string): UserRecord {
    Repassworded(AdminEdited(Renamed(u, req), req, isAdmin), req, hash)
  }

  /** A supplied name is stored trimmed. */
  function Renamed(u: UserRecord, req: PutRequest): UserRecord {
    u.(firstName := if req.firstName.Some? then Trim(req.firstName.value) else u.firstName,
       lastName := if req.lastName.Some? then Trim(req.lastName.value) else u.lastName)
  }

  /** The fields only an admin may set; an unknown role is not applied (the save fails instead). */
  function AdminEdited(u: UserRecord, req: PutRequest, isAdmin: bool): UserRecord {
    if !isAdmin then u
    else
      u.(email := if req.email.Some? then EmailKey(req.email.value) else u.email,
         role := if req.role.Some? && ParseRole(req.role.value).Some? then ParseRole(req.role.value) else u.role,
         approved := if req.approved.Some? then req.approved else u.approved,
         permissions := if req.permissions.Some? then req.permissions else u.permissions)
  }

  /** A non-blank password is stored hashed. */
  function Repassworded(u: UserRecord, req: PutRequest, hash: string -> string): UserRecord {
    u.(password := if NewPassword(req) then hash(req.password.value) else u.password)
  }

  /** The effect of `PUT` on the users collection. */
  function PutResult(users: seq<UserRecord>, session: Option<Claims>, req: PutRequest, hash: string -> string): PutOutcome {
    if SignedOut(session) then PutOutcome(users, PutRefused(Unauthorized, NotAuthorized))
    else
      var i := FindUser(users, EmailKey(session.value.email.value));
      if i < 0 then PutOutcome(users, PutRefused(NotFound, UnknownUser))
      else
        var u := Hydrated(users[i]);
        var isAdmin := u.role == Some(RoleAdmin);
        if isAdmin && req.email.Some? && TakenByOther(users, EmailKey(req.email.value), u.id) then
          PutOutcome(users, PutRefused(BadRequest, EmailTakenMessage))
        else SaveResult(users, Edited(u, req, isAdmin, hash), BadRole(isAdmin, req))
  }

  /** `save()` of the edited document; a refused save is the 500 reply. */
  function SaveResult(users: seq<UserRecord>, v: UserRecord, badRole: bool): PutOutcome {
    if badRole || !SaveOk(users, PreSaved(v)) then PutOutcome(users, PutRefused(InternalError, ServerError))
    else PutOutcome(ReplaceUser(users, PreSaved(v)), Updated)
  }

  /** `PUT /api/user`, assigning the document's fields one by one. */
  method Put(db: Database, session: Option<Claims>, req: PutRequest, hash: string -> string) returns (reply: PutReply)
    requires db.Valid()
    modifies db
    ensures db.Valid()
    ensures var o := PutResult(old(db.users), session, req, hash);
      db.users == o.users && reply == o.reply
    ensures db.pending == old(db.pending) && db.campaigns == old(db.campaigns) && db.nextId == old(db.nextId)
  {
    if session.None? || !Present(session.value.email) {
      return PutRefused(Unauthorized, NotAuthorized);
    }
    var i := FindUser(db.users, EmailKey(session.value.email.value));
    if i < 0 {
      return PutRefused(NotFound, UnknownUser);
    }
    var u := Hydrated(db.users[i]);
    var isAdmin := u.role == Some(RoleAdmin);
    if isAdmin && req.email.Some? {
      // The handler has trimmed the names on its document by now; a refusal never saves them.
      var lower := ToLower(req.email.value);
      EmailKeyOfLower(req.email.value);
      if TakenByOther(db.users, EmailKey(lower), u.id) {
        return PutRefused(BadRequest, EmailTakenMessage);
      }
    }
    var v, badRole := Assign(u, req, isAdmin, hash);
    reply := Save(db, v, badRole);
  }

  /** The handler's field assignments on the loaded document. */
  method Assign(u: UserRecord, req: PutRequest, isAdmin: bool, hash: string -> string) returns (v: UserRecord, badRole: bool)
    ensures v == Edited(u, req, isAdmin, hash)
    ensures badRole == BadRole(isAdmin, req)
  {
    var doc := new UserDoc(u);
    AssignNames(doc, req);
    badRole := false;
    if isAdmin {
      badRole := AssignAdminFields(doc, req);
    }
    if req.password.Some? && Trim(req.password.value) != "" {
      doc.password := hash(req.password.value);
    }
    v := doc.Record();
  }

  method AssignNames(doc: UserDoc, req: PutRequest)
    modifies doc
    ensures doc.Record() == Renamed(old(doc.Record()), req)
  {
    if req.firstName.Some? {
      doc.firstName := Trim(req.firstName.value);
    }
    if req.lastName.Some? {
      doc.lastName := Trim(req.lastName.value);
    }
  }

  /** The admin's assignments; reports a role the enum does not contain. */
  method AssignAdminFields(doc: UserDoc, req: PutRequest) returns (badRole: bool)
    modifies doc
    ensures doc.Record() == AdminEdited(old(doc.Record()), req, true)
    ensures badRole == BadRole(true, req)
  {
    AssignEmail(doc, req);
    badRole := AssignRole(doc, req);
    AssignFlags(doc, req);
  }

  /** A supplied address is stored as its key. */
  method AssignEmail(doc: UserDoc, req: PutRequest)
    modifies doc
    ensures doc.Record() == old(doc.Record()).(email := if req.email.Some? then EmailKey(req.email.value) else old(doc.email))
  {
    if req.email.Some? {
      var lower := ToLower(req.email.value);
      EmailKeyOfLower(req.email.value);
      // `.toLowerCase().trim()`, then the schema's own lower-casing and trimming.
      doc.email := EmailKey(lower);
    }
  }

  /** A supplied role is applied when the enum has it and reported otherwise. */
  method AssignRole(doc: UserDoc, req: PutRequest) returns (badRole: bool)
    modifies doc
    ensures doc.Record() == old(doc.Record()).(role := if req.role.Some? && ParseRole(req.role.value).Some? then ParseRole(req.role.value) else old(doc.role))
    ensures badRole == BadRole(true, req)
  {
    badRole := false;
    if req.role.Some? {
      var r := ParseRole(req.role.value);
      if r.Some? {
        doc.role := r;
      } else {
        badRole := true;
      }
    }
  }

  /** A supplied approval flag or permission record replaces the stored one. */
  method AssignFlags(doc: UserDoc, req: PutRequest)
    modifies doc
    ensures doc.Record() == old(doc.Record()).(approved := if req.approved.Some? then req.approved else old(doc.approved),
                                                permissions := if req.permissions.Some? then req.permissions else old(doc.permissions))
  {
    if req.approved.Some? {
      doc.approved := req.approved;
    }
    if req.permissions.Some? {
      doc.permissions := req.permissions;
    }
  }

  /** The final `save()`. */
  method Save(db: Database, v: UserRecord, badRole: bool) returns (reply: PutReply)
    requires db.Valid() && v.id < db.nextId
    requires exists j :: 0 <= j < |db.users| && db.users[j].id == v.id
    modifies db
    ensures db.Valid()
    ensures var o := SaveResult(old(db.users), v, badRole);
      db.users == o.users && reply == o.reply
    ensures db.pending == old(db.pending) && db.campaigns == old(db.campaigns) && db.nextId == old(db.nextId)
  {
    if badRole {
      return PutRefused(InternalError, ServerError);
    }
    var saved := db.SaveUser(v);
    if !saved {
      return PutRefused(InternalError, ServerError);
    }
    return Updated;
  }

  // ----- Properties -----

  /** Without a signed-in address the reply is 401, and for an address no user holds 404; nothing changes. */
  lemma RefusedCallers(users: seq<UserRecord>, session: Option<Claims>, req: PutRequest, hash: string -> string)
    ensures SignedOut(session) ==>
      Get(users, session) == GetRefused(Unauthorized, NotAuthorized)
      && PutResult(users, session, req, hash) == PutOutcome(users, PutRefused(Unauthorized, NotAuthorized))
    ensures !SignedOut(session) && !EmailTaken(users, EmailKey(session.value.email.value)) ==>
      Get(users, session) == GetRefused(NotFound, UnknownUser)
      && PutResult(users, session, req, hash) == PutOutcome(users, PutRefused(NotFound, UnknownUser))
  {
  }

  /**
   * `GET` fills in what the stored record lacks: the stored permissions or the role's
   * fallback, role 'user', approved false, isActive true; present values are returned as stored.
   */
  lemma ProfileFallbacks(u: UserRecord)
    ensures var p := ProfileOf(u);
      && (u.permissions.Some? ==> p.permissions == u.permissions.value)
      && (u.permissions.None? && u.role == Some(RoleAdmin) ==> p.permissions == AllGranted)
      && (u.permissions.None? && u.role != Some(RoleAdmin) ==> p.permissions == MarketingOnly)
      && (u.role.Some? ==> p.role == u.role.value) && (u.role.None? ==> p.role == RoleUser)
      && (u.approved.Some? ==> p.approved == u.approved.value) && (u.approved.None? ==> !p.approved)
      && (u.isActive.Some? ==> p.isActive == u.isActive.value) && (u.isActive.None? ==> p.isActive)
      && p.id == u.id && p.email == u.email
  {
  }

  /**
   * What a successful `PUT` stores for the caller whose document, as loaded, is `u`. Names are stored trimmed when
   * supplied and kept otherwise; the hash changes exactly when a non-blank password is
   * supplied; `isActive` and `lastLogin` never change. A caller who is not an admin keeps
   * address, role, approval and permissions whatever the request carries.
   */
  predicate StoredEdit(u: UserRecord, w: UserRecord, req: PutRequest, hash: string -> string) {
    && w.id == u.id && w.isActive == u.isActive && w.lastLogin == u.lastLogin
    && w.firstName == (if req.firstName.Some? then Trim(req.firstName.value) else u.firstName)
    && w.lastName == (if req.lastName.Some? then Trim(req.lastName.value) else u.lastName)
    && w.password == (if NewPassword(req) then hash(req.password.value) else u.password)
    && (u.role != Some(RoleAdmin) ==>
          w.email == u.email && w.role == u.role && w.approved == u.approved && w.permissions == u.permissions)
  }

  /**
   * A successful `PUT` replaces the caller's record, and only it, by a `StoredEdit` of the
   * loaded document; the saved record carries every default the load filled in.
   */
  lemma UpdateRules(users: seq<UserRecord>, session: Option<Claims>, req: PutRequest, hash: string -> string)
    requires UserIdsUnique(users)
    requires PutResult(users, session, req, hash).reply == Updated
    ensures !SignedOut(session)
    ensures var i := FindUser(users, EmailKey(session.value.email.value));
      var after := PutResult(users, session, req, hash).users;
      && 0 <= i < |users| && |after| == |users|
      && after == users[i := after[i]]
      && StoredEdit(Hydrated(users[i]), after[i], req, hash)
      && after[i].role.Some? && after[i].approved.Some? && after[i].isActive.Some? && after[i].permissions.Some?
  {
    var i := FindUser(users, EmailKey(session.value.email.value));
    var u := Hydrated(users[i]);
    var v := PreSaved(Edited(u, req, u.role == Some(RoleAdmin), hash));
    ReplaceUserAtIndex(users, i, v);
  }

  /**
   * An admin's new address is refused with 400, nothing saved, when another user holds its
   * lower-cased form; on success it is stored lower-cased and trimmed.
   */
  lemma AdminAddressChange(users: seq<UserRecord>, session: Option<Claims>, req: PutRequest, hash: string -> string)
    requires UserIdsUnique(users)
    requires !SignedOut(session) && EmailTaken(users, EmailKey(session.value.email.value))
    requires users[FindUser(users, EmailKey(session.value.email.value))].role == Some(RoleAdmin)
    requires req.email.Some?
    ensures var i := FindUser(users, EmailKey(session.value.email.value));
      var o := PutResult(users, session, req, hash);
      && (TakenByOther(users, EmailKey(req.email.value), users[i].id) ==>
            o == PutOutcome(users, PutRefused(BadRequest, EmailTakenMessage)))
      && (o.reply == Updated ==> o.users[i].email == EmailKey(req.email.value))
  {
    var i := FindUser(users, EmailKey(session.value.email.value));
    var u := Hydrated(users[i]);
    ReplaceUserAtIndex(users, i, PreSaved(Edited(u, req, true, hash)));
  }
}
