/**
 * `authenticateAdmin`, the older admin gate: it looks at the token's role and
 * at nothing else.
 */
module AuthenticateAdmin {
  import opened Wrappers
  import opened Permissions
  import opened Auth
  import CheckPermissions

  datatype AdminCheck = AdminCheck(authorized: bool, user: Option<Claims>)

  /** `authenticateAdmin(req)` on the caller's token. */
  function AuthenticateAdmin(token: Option<Claims>): AdminCheck {
    if token.None? || token.value.role != Some(RoleAdmin) then AdminCheck(false, None)
    else AdminCheck(true, token)
  }

  /**
   * Authorized exactly when there is a token whose role is 'admin'; the `admin` flag does
   * not help and `isActive` is not consulted. An authorized result carries the token.
   */
  lemma AdminGate(token: Option<Claims>)
    ensures AuthenticateAdmin(token).authorized <==> token.Some? && token.value.role == Some(RoleAdmin)
    ensures AuthenticateAdmin(token).authorized ==> AuthenticateAdmin(token).user == token
    ensures !AuthenticateAdmin(token).authorized ==> AuthenticateAdmin(token).user.None?
  {
  }

  /**
   * Compared with `checkAdminPermission`: on an active token this gate is the stricter one
   * (the `admin` flag alone passes only the other), while an inactive admin passes this
   * gate and is refused by the other.
   */
  lemma ComparedWithCheckAdmin(t: Claims)
    ensures t.isActive == Some(true) && AuthenticateAdmin(Some(t)).authorized ==>
      CheckPermissions.CheckAdminPermission(Some(t)).authorized
    ensures t.role == Some(RoleAdmin) && t.isActive != Some(true) ==>
      AuthenticateAdmin(Some(t)).authorized && !CheckPermissions.CheckAdminPermission(Some(t)).authorized
    ensures t.role != Some(RoleAdmin) && t.isActive == Some(true) && t.permissions.Some? && t.permissions.value.admin ==>
      !AuthenticateAdmin(Some(t)).authorized && CheckPermissions.CheckAdminPermission(Some(t)).authorized
  {
  }
}
