/**
 * The `User` document: schema defaults and setters, the pre-save hook that gives
 * admins every permission, the permission instance methods and the two finders.
 */
module UserModel {
  import opened Wrappers
  import opened Text
  import opened Seqs
  import opened Permissions

  /**
   * A stored user. The role, the two status flags and the permission record are
   * optional: documents written before those fields existed lack them. A handler
   * that loads a document (`findOne` without `.lean()`) reads it through `Hydrated`,
   * which fills in the schema defaults; the `.lean()` readers get the stored record
   * as it is and supply their own fallbacks.
   */
  datatype UserRecord = UserRecord(
    id: nat,
    email: string,
    password: string,
    firstName: string,
    lastName: string,
    role: Option<Role>,
    approved: Option<bool>,
    isActive: Option<bool>,
    permissions: Option<Flags>,
    lastLogin: Option<int>)

  /**
   * `new User({...})`: the email is lower-cased and trimmed, the names trimmed,
   * and every field left out takes its schema default.
   */
  function NewUser(id: nat, email: string, password: string, firstName: string, lastName: string,
                   role: Option<Role>, approved: Option<bool>, isActive: Option<bool>,
                   permissions: Option<Flags>): (u: UserRecord)
    ensures u.id == id && u.password == password
    ensures u.email == EmailKey(email) && u.firstName == Trim(firstName) && u.lastName == Trim(lastName)
    ensures u.role.Some? && u.approved.Some? && u.isActive.Some? && u.permissions.Some? && u.lastLogin.None?
    ensures role.Some? ==> u.role == role
    ensures approved.Some? ==> u.approved == approved
    ensures isActive.Some? ==> u.isActive == isActive
    ensures permissions.Some? ==> u.permissions == permissions
  {
    UserRecord(id, EmailKey(email), password, Trim(firstName), Trim(lastName),
      Some(role.GetOr(RoleUser)), Some(approved.GetOr(false)), Some(isActive.GetOr(true)),
      Some(permissions.GetOr(DefaultPermissions)), None)
  }

  /** A user created with nothing but its required fields is an unapproved, active 'user' with no permission. */
  lemma NewUserDefaults(id: nat, email: string, password: string, firstName: string, lastName: string)
    ensures var u := NewUser(id, email, password, firstName, lastName, None, None, None, None);
      && u.role == Some(RoleUser) && u.approved == Some(false) && u.isActive == Some(true)
      && (forall p :: !u.permissions.value.Get(p))
      && Trim(u.email) == u.email
      && (forall i :: 0 <= i < |u.email| ==> !IsUpperAscii(u.email[i]))
  {
    EmailKeyNormal(email);
  }

  /** The flag record a document reads: a missing record reads every flag as unset. */
  function FlagsOf(u: UserRecord): Flags {
    u.permissions.GetOr(DefaultPermissions)
  }

  /**
   * The document a `findOne` without `.lean()` returns: Mongoose fills every path the
   * stored record lacks with its schema default (role 'user', not approved, active, every
   * permission flag unset), and a later `save()` of the document writes them back.
   */
  function Hydrated(u: UserRecord): (r: UserRecord)
    ensures r.role.Some? && r.approved.Some? && r.isActive.Some? && r.permissions.Some?
    ensures r == u.(role := r.role, approved := r.approved, isActive := r.isActive, permissions := r.permissions)
    ensures u.role.Some? ==> r.role == u.role
    ensures u.approved.Some? ==> r.approved == u.approved
    ensures u.isActive.Some? ==> r.isActive == u.isActive
    ensures u.permissions.Some? ==> r.permissions == u.permissions
    ensures u.role.None? ==> r.role == Some(RoleUser)
    ensures u.approved.None? ==> r.approved == Some(false)
    ensures u.isActive.None? ==> r.isActive == Some(true)
    ensures u.permissions.None? ==> forall p :: !r.permissions.value.Get(p)
  {
    u.(role := Some(u.role.GetOr(RoleUser)), approved := Some(u.approved.GetOr(false)),
       isActive := Some(u.isActive.GetOr(true)), permissions := Some(FlagsOf(u)))
  }

  /**
   * Loading fills in exactly the defaults `new User` fills in, so a loaded legacy record reads
   * like one created with the fields it has; loading a loaded or a created document changes nothing.
   */
  lemma HydratedAsCreated(u: UserRecord)
    requires EmailKey(u.email) == u.email && Trim(u.firstName) == u.firstName && Trim(u.lastName) == u.lastName
    ensures Hydrated(u) == NewUser(u.id, u.email, u.password, u.firstName, u.lastName,
                                   u.role, u.approved, u.isActive, u.permissions).(lastLogin := u.lastLogin)
    ensures Hydrated(Hydrated(u)) == Hydrated(u)
  {
  }

  /** A document `new User` made is loaded back as it was stored. */
  lemma CreatedIsHydrated(id: nat, email: string, password: string, firstName: string, lastName: string,
                          role: Option<Role>, approved: Option<bool>, isActive: Option<bool>, permissions: Option<Flags>)
    ensures var u := NewUser(id, email, password, firstName, lastName, role, approved, isActive, permissions);
      Hydrated(u) == u
  {
  }

  /**
   * On a loaded document the fallbacks `user.permissions || ...` and `isActive ?? true` never
   * apply: the effective record is the stored flags (all unset when none are stored), the
   * activity flag is the stored one or true, and `hasPermission` reads as on the stored record.
   */
  lemma HydratedFallbacksUnused(u: UserRecord, role: Option<Role>, p: Permission)
    ensures Effective(Hydrated(u).permissions, role) == FlagsOf(u)
    ensures Hydrated(u).isActive.value == u.isActive.GetOr(true)
    ensures HasPermission(Hydrated(u), p) == HasPermission(u, p)
  {
  }

  /** The pre-save hook: a user whose role is 'admin' is saved with all six flags set. */
  function PreSaved(u: UserRecord): (r: UserRecord)
    ensures r.role == Some(RoleAdmin) ==> r.permissions == Some(AllGranted)
    ensures u.role != Some(RoleAdmin) ==> r == u
    ensures r == u.(permissions := r.permissions)
  {
    if u.role == Some(RoleAdmin) then u.(permissions := Some(AllGranted)) else u
  }

  /** Saving twice in a row is saving once. */
  lemma PreSaveIdempotent(u: UserRecord)
    ensures PreSaved(PreSaved(u)) == PreSaved(u)
  {
  }

  /** `hasPermission(p)`: the flag, or being an admin. */
  function HasPermission(u: UserRecord, p: Permission): bool {
    FlagsOf(u).Get(p) || u.role == Some(RoleAdmin)
  }

  /** `grantPermission(p)` applied to a record. */
  function Granted(u: UserRecord, p: Permission): (r: UserRecord)
    ensures r.permissions.Some? && r.permissions.value.Get(p)
    ensures forall q :: q != p ==> r.permissions.value.Get(q) == FlagsOf(u).Get(q)
    ensures r == u.(permissions := r.permissions)
  {
    u.(permissions := Some(FlagsOf(u).Set(p, true)))
  }

  /** `revokePermission(p)` applied to a record: admins keep everything. */
  function Revoked(u: UserRecord, p: Permission): (r: UserRecord)
    ensures u.role == Some(RoleAdmin) ==> r == u
    ensures u.role != Some(RoleAdmin) ==> r.permissions.Some? && !r.permissions.value.Get(p)
    ensures u.role != Some(RoleAdmin) ==> forall q :: q != p ==> r.permissions.value.Get(q) == FlagsOf(u).Get(q)
    ensures r == u.(permissions := r.permissions)
  {
    if u.role == Some(RoleAdmin) then u else u.(permissions := Some(FlagsOf(u).Set(p, false)))
  }

  /** An admin holds every permission whatever the flags say, and revoking cannot take one away. */
  lemma AdminHoldsEverything(u: UserRecord, p: Permission, q: Permission)
    requires u.role == Some(RoleAdmin)
    ensures HasPermission(u, p)
    ensures HasPermission(Revoked(u, q), p)
  {
  }

  /** For everyone else `hasPermission` is the flag itself, so granting and revoking decide it. */
  lemma NonAdminHasPermission(u: UserRecord, p: Permission, q: Permission)
    requires u.role != Some(RoleAdmin)
    ensures HasPermission(u, p) == FlagsOf(u).Get(p)
    ensures HasPermission(Granted(u, p), p)
    ensures !HasPermission(Revoked(u, p), p)
    ensures q != p ==> HasPermission(Granted(u, q), p) == HasPermission(u, p)
    ensures q != p ==> HasPermission(Revoked(u, q), p) == HasPermission(u, p)
  {
  }

  /** The `fullName` virtual. */
  function FullName(u: UserRecord): string {
    u.firstName + " " + u.lastName
  }

  /** The full name is the first name, one space, then the last name. */
  lemma FullNameParts(u: UserRecord)
    ensures |FullName(u)| == |u.firstName| + 1 + |u.lastName|
    ensures FullName(u)[..|u.firstName|] == u.firstName
    ensures FullName(u)[|u.firstName|] == ' '
    ensures FullName(u)[|u.firstName| + 1..] == u.lastName
  {
  }

  /** The filter `{ isActive: true, approved: true }`: a missing field does not match. */
  predicate IsActiveApproved(u: UserRecord) {
    u.isActive == Some(true) && u.approved == Some(true)
  }

  /** The filter of `findByPermission(p)`. */
  predicate HoldsFlagActively(p: Permission, u: UserRecord) {
    u.permissions.Some? && u.permissions.value.Get(p) && IsActiveApproved(u)
  }

  /** `User.findActiveUsers()`. */
  function FindActiveUsers(users: seq<UserRecord>): (r: seq<UserRecord>)
    ensures forall u :: u in r <==> u in users && u.isActive == Some(true) && u.approved == Some(true)
    ensures IsSubsequence(r, users)
  {
    FilterIsSubsequence(users, IsActiveApproved);
    Filter(users, IsActiveApproved)
  }

  /** `User.findByPermission(p)`. */
  function FindByPermission(users: seq<UserRecord>, p: Permission): (r: seq<UserRecord>)
    ensures forall u :: u in r <==> u in users && u.permissions.Some? && u.permissions.value.Get(p) && IsActiveApproved(u)
    ensures IsSubsequence(r, users)
  {
    FilterIsSubsequence(users, u => HoldsFlagActively(p, u));
    Filter(users, u => HoldsFlagActively(p, u))
  }

  /** Users found by a permission are active users, and there are never more of them. */
  lemma ByPermissionWithinActive(users: seq<UserRecord>, p: Permission)
    ensures forall u :: u in FindByPermission(users, p) ==> u in FindActiveUsers(users)
    ensures |FindByPermission(users, p)| <= |FindActiveUsers(users)|
  {
    CountMonotone(users, u => HoldsFlagActively(p, u), IsActiveApproved);
  }

  /** The stored email is the lookup key of the user `i`. */
  predicate EmailTaken(users: seq<UserRecord>, key: string) {
    exists i :: 0 <= i < |users| && users[i].email == key
  }

  /** Mongoose's `required` validators and the unique index on `email`: what makes a save of `u` succeed. */
  predicate SaveOk(users: seq<UserRecord>, u: UserRecord) {
    && u.email != "" && u.password != "" && u.firstName != "" && u.lastName != ""
    && forall i :: 0 <= i < |users| && users[i].id != u.id ==> users[i].email != u.email
  }

  /** A Mongoose `User` document in memory. */
  class UserDoc {
    var id: nat
    var email: string
    var password: string
    var firstName: string
    var lastName: string
    var role: Option<Role>
    var approved: Option<bool>
    var isActive: Option<bool>
    var permissions: Option<Flags>
    var lastLogin: Option<int>

    function Record(): UserRecord
      reads this
    {
      UserRecord(id, email, password, firstName, lastName, role, approved, isActive, permissions, lastLogin)
    }

    constructor (r: UserRecord)
      ensures Record() == r
    {
      id, email, password, firstName, lastName := r.id, r.email, r.password, r.firstName, r.lastName;
      role, approved, isActive, permissions, lastLogin := r.role, r.approved, r.isActive, r.permissions, r.lastLogin;
    }

    /** The pre-save hook, run by every `save()`. */
    method PreSave()
      modifies this
      ensures Record() == PreSaved(old(Record()))
    {
      if role == Some(RoleAdmin) {
        permissions := Some(AllGranted);
      }
    }

    method GrantPermission(p: Permission)
      modifies this
      ensures Record() == Granted(old(Record()), p)
    {
      permissions := Some(FlagsOf(Record()).Set(p, true));
    }

    method RevokePermission(p: Permission)
      modifies this
      ensures Record() == Revoked(old(Record()), p)
    {
      if role != Some(RoleAdmin) {
        permissions := Some(FlagsOf(Record()).Set(p, false));
      }
    }
  }
}
