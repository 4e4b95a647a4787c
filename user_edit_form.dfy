/**
 * The dialog an administrator edits a user with: the form state loaded from the user,
 * the role and permission handlers, the `PATCH` payload (an empty password is left
 * out), the status badge and the active-permission counter.
 */
module UserEditForm {
  import opened Wrappers
  import opened Text
  import opened Seqs
  import opened Permissions
  import opened UserCreateForm
  import opened UsersList

  /** The user the dialog is opened for; `isActive` and `permissions` may be missing. */
  datatype EditedUser = EditedUser(firstName: string, lastName: string, email: string, role: Role,
                                   approved: bool, isActive: Option<bool>, permissions: Option<Flags>)

  /** `UpdateUserData` as the form holds it: every field filled in. */
  datatype EditForm = EditForm(firstName: string, lastName: string, email: string, role: Role,
                               approved: bool, isActive: bool, permissions: Flags, password: string)

  /** The state set from the user on opening and whenever the user changes. */
  function InitialEdit(u: EditedUser): (f: EditForm)
    ensures f.firstName == u.firstName && f.lastName == u.lastName && f.email == u.email
    ensures f.role == u.role && f.approved == u.approved
    ensures f.isActive == (u.isActive.None? || u.isActive.value)
    ensures u.permissions.Some? ==> f.permissions == u.permissions.value
    ensures u.permissions.None? ==> forall p :: !f.permissions.Get(p)
    ensures f.password == ""
  {
    EditForm(u.firstName, u.lastName, u.email, u.role, u.approved, u.isActive.GetOr(true),
             u.permissions.GetOr(DefaultPermissions), "")
  }

  /** `handleRoleChange(role)`: the same flag update as the create dialog's. */
  function EditRoleChange(f: EditForm, role: Role): (r: EditForm)
    ensures r.role == role
    ensures role == RoleAdmin ==> forall p :: r.permissions.Get(p)
    ensures role != RoleAdmin ==> !r.permissions.admin && forall p :: p != Admin ==> r.permissions.Get(p) == f.permissions.Get(p)
    ensures r.(role := f.role, permissions := f.permissions) == f
  {
    f.(role := role, permissions := FlagsForRole(f.permissions, role))
  }

  /** `handlePermissionChange(permission, checked)`. */
  function EditPermissionChange(f: EditForm, p: Permission, checked: bool): (r: EditForm)
    ensures r.permissions.Get(p) == checked
    ensures forall q :: q != p ==> r.permissions.Get(q) == f.permissions.Get(q)
    ensures r.(permissions := f.permissions) == f
  {
    f.(permissions := f.permissions.Set(p, checked))
  }

  /** The body of the `PATCH` request: the form with the password key present or deleted. */
  datatype Payload = Payload(firstName: string, lastName: string, email: string, role: Role,
                             approved: bool, isActive: bool, permissions: Flags, password: Option<string>)

  /** `updateUser`'s payload: a copy of the form whose password key is deleted when it is empty or only spaces. */
  method UpdatePayload(f: EditForm) returns (payload: Payload)
    ensures payload.password.None? <==> IsBlank(f.password)
    ensures payload.password.Some? ==> payload.password.value == f.password
    ensures payload.(password := None) == Payload(f.firstName, f.lastName, f.email, f.role, f.approved, f.isActive, f.permissions, None)
  {
    payload := Payload(f.firstName, f.lastName, f.email, f.role, f.approved, f.isActive, f.permissions, Some(f.password));
    if payload.password.value == "" || Trim(payload.password.value) == "" {
      payload := payload.(password := None);
    }
    TrimEmptyIffBlank(f.password);
  }

  /** `getStatusBadge()` on the form's flags. */
  function EditStatusBadge(f: EditForm): Badge {
    BadgeFor(f.approved, f.isActive)
  }

  /** The badge of a freshly loaded form: a user without a stored `isActive` shows as active once approved. */
  lemma LoadedBadge(u: EditedUser)
    ensures EditStatusBadge(InitialEdit(u)) == Active <==> u.approved && u.isActive != Some(false)
    ensures EditStatusBadge(InitialEdit(u)) == NotApproved <==> !u.approved
  {
  }

  /** `Object.values(permissions).filter(Boolean).length`. */
  function ActiveCount(f: EditForm): nat {
    Count(AllPermissions, HeldBy(f.permissions))
  }

  /** The counter lies between 0 and the six labels; it is six after choosing admin and counts exactly the true flags. */
  lemma ActiveCountBounds(f: EditForm, p: Permission)
    ensures ActiveCount(f) <= |AllPermissions| == 6
    ensures ActiveCount(EditRoleChange(f, RoleAdmin)) == 6
    ensures f.permissions.Get(p) <==> p in Filter(AllPermissions, HeldBy(f.permissions))
  {
    var g := EditRoleChange(f, RoleAdmin);
    FilterAll(AllPermissions, HeldBy(g.permissions));
    EnumerationsComplete();
  }
}
