/**
 * The client-side `usePermissions` hook: the effective permission record of the
 * session user and the predicates the UI gates on.
 */
module UsePermissions {
  import opened Wrappers
  import opened Permissions
  import opened Auth

  /** `getUserPermissions()`: the defaults without a session user, else the stored record or the role's fallback. */
  function UserPermissions(session: Option<Claims>): (f: Flags)
    ensures session.None? ==> f == DefaultPermissions
    ensures session.Some? && session.value.permissions.Some? ==> f == session.value.permissions.value
  {
    match session
    case None => DefaultPermissions
    case Some(u) => Effective(u.permissions, u.role)
  }

  /** `hasPermission(p)`: `permissions[p] || false`. */
  function HasPermission(session: Option<Claims>, p: Permission): bool {
    UserPermissions(session).Get(p)
  }

  function HasAnyPermission(session: Option<Claims>, ps: seq<Permission>): bool {
    AnyHeld(UserPermissions(session), ps)
  }

  function HasAllPermissions(session: Option<Claims>, ps: seq<Permission>): bool {
    AllHeld(UserPermissions(session), ps)
  }

  /** `isAdmin()`: the admin role, or the effective `admin` flag. */
  function IsAdmin(session: Option<Claims>): bool {
    (session.Some? && session.value.role == Some(RoleAdmin)) || HasPermission(session, Admin)
  }

  /** `canAccessDepartment(d)`. */
  function CanAccessDepartment(session: Option<Claims>, d: Permission): bool {
    if IsAdmin(session) then true else HasPermission(session, d)
  }

  // ----- Properties -----

  /**
   * The effective record: no session gives no permission at all; stored permissions are
   * used as they are; otherwise an admin gets all six and everyone else marketing only.
   */
  lemma EffectiveRecord(session: Option<Claims>, p: Permission)
    ensures session.None? ==> !HasPermission(session, p)
    ensures session.Some? && session.value.permissions.Some? ==>
      HasPermission(session, p) == session.value.permissions.value.Get(p)
    ensures session.Some? && session.value.permissions.None? && session.value.role == Some(RoleAdmin) ==>
      HasPermission(session, p)
    ensures session.Some? && session.value.permissions.None? && session.value.role != Some(RoleAdmin) ==>
      (HasPermission(session, p) <==> p == Marketing)
  {
  }

  /**
   * `hasAnyPermission([])` is false and `hasAllPermissions([])` true; each is the
   * existential or universal over the list, so for a non-empty list "all" implies "any".
   */
  lemma AnyAndAll(session: Option<Claims>, ps: seq<Permission>)
    ensures !HasAnyPermission(session, []) && HasAllPermissions(session, [])
    ensures HasAnyPermission(session, ps) <==> exists i :: 0 <= i < |ps| && HasPermission(session, ps[i])
    ensures HasAllPermissions(session, ps) <==> forall i :: 0 <= i < |ps| ==> HasPermission(session, ps[i])
    ensures ps != [] && HasAllPermissions(session, ps) ==> HasAnyPermission(session, ps)
  {
    if ps != [] && HasAllPermissions(session, ps) {
      assert HasPermission(session, ps[0]);
    }
  }

  /**
   * `isAdmin` holds iff the role is 'admin' or the effective admin flag is set (which a
   * role 'admin' without stored permissions always has); `canAccessDepartment` is true for
   * admins and otherwise the department flag.
   */
  lemma AdminAndDepartments(session: Option<Claims>, d: Permission)
    ensures IsAdmin(session) <==>
      session.Some? && (session.value.role == Some(RoleAdmin)
                        || (session.value.permissions.Some? && session.value.permissions.value.admin))
    ensures IsAdmin(session) ==> CanAccessDepartment(session, d)
    ensures !IsAdmin(session) ==> CanAccessDepartment(session, d) == HasPermission(session, d)
    ensures CanAccessDepartment(session, d) ==> HasPermission(session, d) || IsAdmin(session)
  {
  }
}
