/**
 * The server-side checks an API route runs on the caller's token: one
 * permission, any of several, the admin right, or only being signed in. Each is
 * a chain of early refusals: no token, then a deactivated account, then the
 * rule of its own. The token is an input (`getToken` is not part of this model).
 */
module CheckPermissions {
  import opened Wrappers
  import opened Text
  import opened Http
  import opened Permissions
  import opened Auth

  /** `AuthResult`: the token as `user` when authorized, a `message` when not. */
  datatype AuthCheck = AuthCheck(authorized: bool, user: Option<Claims>, message: Option<string>)

  const NotSignedIn := "Nicht eingeloggt"
  const Deactivated := "Account deaktiviert"
  const NoPermissionsDefined := "Keine Berechtigungen definiert"
  const AdminRequired := "Admin-Berechtigung erforderlich"

  function Allow(t: Claims): AuthCheck { AuthCheck(true, Some(t), None) }

  function Deny(message: string): AuthCheck { AuthCheck(false, None, Some(message)) }

  /** `!token.isActive`: a missing flag counts as deactivated. */
  predicate Inactive(t: Claims) { t.isActive != Some(true) }

  /** `checkPermission(req, p)`. */
  function CheckPermission(token: Option<Claims>, p: Permission): AuthCheck {
    match token
    case None => Deny(NotSignedIn)
    case Some(t) =>
      if Inactive(t) then Deny(Deactivated)
      else if t.role == Some(RoleAdmin) then Allow(t)
      else if t.permissions.None? || !t.permissions.value.Get(p) then Deny("Keine Berechtigung für " + Key(p))
      else Allow(t)
  }

  /** `checkAnyPermission(req, ps)`. */
  function CheckAnyPermission(token: Option<Claims>, ps: seq<Permission>): AuthCheck {
    match token
    case None => Deny(NotSignedIn)
    case Some(t) =>
      if Inactive(t) then Deny(Deactivated)
      else if t.role == Some(RoleAdmin) then Allow(t)
      else if t.permissions.None? then Deny(NoPermissionsDefined)
      else if !AnyHeld(t.permissions.value, ps) then Deny("Keine Berechtigung für: " + Join(Keys(ps), ", "))
      else Allow(t)
  }

  function Keys(ps: seq<Permission>): (ks: seq<string>)
    ensures |ks| == |ps|
  {
    if ps == [] then [] else [Key(ps[0])] + Keys(ps[1..])
  }

  /** `checkAdminPermission(req)`: the admin role, or the `admin` flag. */
  function CheckAdminPermission(token: Option<Claims>): AuthCheck {
    match token
    case None => Deny(NotSignedIn)
    case Some(t) =>
      if Inactive(t) then Deny(Deactivated)
      else if !(t.role == Some(RoleAdmin) || (t.permissions.Some? && t.permissions.value.admin)) then Deny(AdminRequired)
      else Allow(t)
  }

  /** `checkAuthenticated(req)`. */
  function CheckAuthenticated(token: Option<Claims>): AuthCheck {
    match token
    case None => Deny(NotSignedIn)
    case Some(t) => if Inactive(t) then Deny(Deactivated) else Allow(t)
  }

  /** A response of the two helpers: its status and its `error` body. */
  datatype Response = Response(status: Status, error: string)

  /** `unauthorizedResponse(message = 'Unauthorized')`. */
  function UnauthorizedResponse(message: Option<string>): (r: Response)
    ensures r.status.Code() == 401
    ensures r.error == if message.Some? then message.value else "Unauthorized"
  {
    Response(Unauthorized, message.GetOr("Unauthorized"))
  }

  /** `forbiddenResponse(message = 'Forbidden')`. */
  function ForbiddenResponse(message: Option<string>): (r: Response)
    ensures r.status.Code() == 403
    ensures r.error == if message.Some? then message.value else "Forbidden"
  {
    Response(Forbidden, message.GetOr("Forbidden"))
  }

  // ----- Properties -----

  /** Every result either carries the token and no message, or a message and no user. */
  predicate WellFormed(token: Option<Claims>, r: AuthCheck) {
    if r.authorized then token.Some? && r.user == token && r.message.None?
    else r.user.None? && r.message.Some?
  }

  /**
   * Every check refuses a missing token with 'Nicht eingeloggt', and an inactive token
   * with 'Account deaktiviert' before it looks at the role, so an inactive admin is refused.
   * Every result is well formed.
   */
  lemma CommonRefusals(token: Option<Claims>, p: Permission, ps: seq<Permission>)
    ensures token.None? ==>
      && CheckPermission(token, p) == Deny(NotSignedIn) && CheckAnyPermission(token, ps) == Deny(NotSignedIn)
      && CheckAdminPermission(token) == Deny(NotSignedIn) && CheckAuthenticated(token) == Deny(NotSignedIn)
    ensures token.Some? && token.value.isActive != Some(true) ==>
      && CheckPermission(token, p) == Deny(Deactivated) && CheckAnyPermission(token, ps) == Deny(Deactivated)
      && CheckAdminPermission(token) == Deny(Deactivated) && CheckAuthenticated(token) == Deny(Deactivated)
    ensures WellFormed(token, CheckPermission(token, p)) && WellFormed(token, CheckAnyPermission(token, ps))
    ensures WellFormed(token, CheckAdminPermission(token)) && WellFormed(token, CheckAuthenticated(token))
  {
  }

  /**
   * An active admin passes `checkPermission` for every permission; an active non-admin
   * passes exactly when its token holds permissions with that flag set.
   */
  lemma PermissionRule(t: Claims, p: Permission)
    requires t.isActive == Some(true)
    ensures t.role == Some(RoleAdmin) ==> CheckPermission(Some(t), p).authorized
    ensures t.role != Some(RoleAdmin) ==>
      (CheckPermission(Some(t), p).authorized <==> t.permissions.Some? && t.permissions.value.Get(p))
  {
  }

  /**
   * For an active non-admin, `checkAnyPermission` passes exactly when one listed flag is
   * set, so an empty list is always refused; it agrees with `checkPermission` on each
   * element: it passes iff `checkPermission` passes for some listed permission.
   */
  lemma AnyPermissionRule(token: Option<Claims>, ps: seq<Permission>)
    ensures token.Some? && token.value.isActive == Some(true) && token.value.role != Some(RoleAdmin) ==>
      (CheckAnyPermission(token, ps).authorized <==>
         token.value.permissions.Some? && exists i :: 0 <= i < |ps| && token.value.permissions.value.Get(ps[i]))
    ensures token.Some? && token.value.role != Some(RoleAdmin) ==> !CheckAnyPermission(token, []).authorized
    ensures ps != [] ==>
      (CheckAnyPermission(token, ps).authorized <==> exists i :: 0 <= i < |ps| && CheckPermission(token, ps[i]).authorized)
  {
    if ps != [] && token.Some? && !Inactive(token.value) && token.value.role == Some(RoleAdmin) {
      assert CheckPermission(token, ps[0]).authorized;
    }
  }

  /**
   * `checkAdminPermission` passes exactly for an active token whose role is 'admin' or
   * whose `admin` flag is set; it is the same as `checkPermission(admin)`.
   */
  lemma AdminRule(token: Option<Claims>)
    ensures CheckAdminPermission(token).authorized <==>
      token.Some? && token.value.isActive == Some(true)
      && (token.value.role == Some(RoleAdmin) || (token.value.permissions.Some? && token.value.permissions.value.admin))
    ensures CheckAdminPermission(token).authorized == CheckPermission(token, Admin).authorized
  {
  }

  /** `checkAuthenticated` passes exactly for a present, active token, and every other check requires it. */
  lemma AuthenticatedRule(token: Option<Claims>, p: Permission, ps: seq<Permission>)
    ensures CheckAuthenticated(token).authorized <==> token.Some? && token.value.isActive == Some(true)
    ensures CheckPermission(token, p).authorized ==> CheckAuthenticated(token).authorized
    ensures CheckAnyPermission(token, ps).authorized ==> CheckAuthenticated(token).authorized
    ensures CheckAdminPermission(token).authorized ==> CheckAuthenticated(token).authorized
  {
  }

  /**
   * A refusal of any of the four checks turned into a response by either helper keeps the
   * check's own message, with 401 or 403; the defaults appear only when no message is given.
   */
  lemma RefusalResponses(token: Option<Claims>, p: Permission, ps: seq<Permission>, r: AuthCheck)
    requires r in {CheckPermission(token, p), CheckAnyPermission(token, ps), CheckAdminPermission(token), CheckAuthenticated(token)}
    requires !r.authorized
    ensures UnauthorizedResponse(r.message) == Response(Unauthorized, r.message.value)
    ensures ForbiddenResponse(r.message) == Response(Forbidden, r.message.value)
    ensures UnauthorizedResponse(r.message).status.Code() == 401 && ForbiddenResponse(r.message).status.Code() == 403
    ensures UnauthorizedResponse(None).error == "Unauthorized" && ForbiddenResponse(None).error == "Forbidden"
  {
    CommonRefusals(token, p, ps);
  }

  /** The token written at a successful sign-in passes `checkAuthenticated`: `authorize` only returns active users. */
  lemma SignedInTokenAuthenticated(token: Claims, users: seq<UserModel.UserRecord>, creds: Credentials,
                                   matches: (string, string) -> bool, now: int)
    requires AuthorizeOutcome(users, creds, matches, now).result.Authorized?
    ensures CheckAuthenticated(Some(Jwt(token, Some(AuthorizeOutcome(users, creds, matches, now).result.user)))).authorized
  {
  }
}
