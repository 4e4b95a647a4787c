/**
 * The account settings page: the form's field rules and its submit guard, the `PUT` body
 * it sends (the role only for an administrator, an empty password left out), the
 * dirty tracking that enables the save button, and the avatar initials. The form library's
 * e-mail pattern test is a parameter.
 */
module SettingsPage {
  import opened Wrappers
  import opened Text
  import opened UsersList

  /** The form's values; the two password fields are absent until typed into. */
  datatype FormData = FormData(firstName: string, lastName: string, email: string, role: string,
                               password: Option<string>, passwordConfirm: Option<string>)

  /** `session?.user?.role === 'admin'`. */
  predicate IsAdmin(sessionRole: Option<string>) {
    sessionRole == Some("admin")
  }

  /** The field rules checked before `onSubmit` runs: three required fields, the e-mail pattern, and six characters for a typed password. */
  predicate FieldsValid(data: FormData, emailMatches: bool) {
    && data.firstName != ""
    && data.lastName != ""
    && data.email != ""
    && emailMatches
    && (!Present(data.password) || |data.password.value| >= 6)
  }

  /** The `PUT /api/user` body; an absent key is `None`. */
  datatype Payload = Payload(firstName: string, lastName: string, email: string,
                             role: Option<string>, password: Option<string>)

  datatype Submission = FieldErrors | Mismatch | Put(payload: Payload)

  /** Submitting the form: field rules, then `onSubmit`'s password check, then the request body. */
  function Submit(data: FormData, sessionRole: Option<string>, emailMatches: bool): (s: Submission)
    ensures s == FieldErrors <==> !FieldsValid(data, emailMatches)
    ensures s == Mismatch <==> FieldsValid(data, emailMatches) && Present(data.password) && data.password != data.passwordConfirm
    ensures s.Put? ==> s.payload.firstName == data.firstName && s.payload.lastName == data.lastName && s.payload.email == data.email
    ensures s.Put? ==> (s.payload.role.Some? <==> IsAdmin(sessionRole)) && (s.payload.role.Some? ==> s.payload.role.value == data.role)
    ensures s.Put? ==> (s.payload.password.Some? <==> Present(data.password))
    ensures s.Put? && s.payload.password.Some? ==> s.payload.password == data.password == data.passwordConfirm && |s.payload.password.value| >= 6
  {
    if !FieldsValid(data, emailMatches) then FieldErrors
    else if Present(data.password) && data.password != data.passwordConfirm then Mismatch
    else Put(Payload(data.firstName, data.lastName, data.email,
                     if IsAdmin(sessionRole) then Some(data.role) else None,
                     if Present(data.password) then data.password else None))
  }

  /** A user who is not an administrator never sends a role, whatever the form holds. */
  lemma NonAdminSendsNoRole(data: FormData, sessionRole: Option<string>, emailMatches: bool)
    requires !IsAdmin(sessionRole)
    ensures Submit(data, sessionRole, emailMatches).Put? ==> Submit(data, sessionRole, emailMatches).payload.role == None
    ensures Submit(data, None, emailMatches) == Submit(data, Some("user"), emailMatches)
  {
  }

  /** Leaving the new password empty sends the rest unchanged and no password, whatever the confirmation holds. */
  lemma EmptyPasswordNotSent(data: FormData, confirm: Option<string>, sessionRole: Option<string>, emailMatches: bool)
    requires data.password == Some("") || data.password == None
    ensures Submit(data.(passwordConfirm := confirm), sessionRole, emailMatches) == Submit(data, sessionRole, emailMatches)
    ensures Submit(data, sessionRole, emailMatches).Put? ==> Submit(data, sessionRole, emailMatches).payload.password == None
  {
  }

  /** `getInitials(firstName, lastName)`: a missing name contributes nothing. */
  function SettingsInitials(firstName: Option<string>, lastName: Option<string>): (r: string)
    ensures |r| == (if firstName.GetOr("") == "" then 0 else 1) + (if lastName.GetOr("") == "" then 0 else 1)
    ensures Present(firstName) && Present(lastName) ==> r == [UpperChar(firstName.value[0]), UpperChar(lastName.value[0])]
  {
    InitialsShape(firstName.GetOr(""), lastName.GetOr(""));
    Initials(firstName.GetOr(""), lastName.GetOr(""))
  }

  // ----- Dirty tracking -----

  /** The form as the page holds it: the values last reset to, the current values, and the flags the button reads. */
  datatype Page = Page(baseline: FormData, values: FormData, dirty: bool, loading: bool, submitting: bool)

  /** Save is enabled only for a dirty form while nothing loads or submits. */
  predicate SaveEnabled(p: Page) {
    !p.loading && !p.submitting && p.dirty
  }

  /** `reset(data)`: the data become the new baseline and the form is clean. */
  function Reset(p: Page, data: FormData): (r: Page)
    ensures r.baseline == data && r.values == data && !r.dirty
    ensures !SaveEnabled(r)
  {
    p.(baseline := data, values := data, dirty := false)
  }

  /** The page once the user's data arrived. */
  function Loaded(data: FormData): (p: Page)
    ensures !SaveEnabled(p) && !p.loading
  {
    Page(data, data, false, false, false)
  }

  /** Typing into a registered input: the form library compares all values with the baseline, so save is enabled exactly when they differ. */
  function Edit(p: Page, values: FormData): (r: Page)
    ensures r.values == values && Tracked(r)
    ensures SaveEnabled(r) <==> !p.loading && !p.submitting && values != p.baseline
    ensures r.baseline == p.baseline && r.loading == p.loading && r.submitting == p.submitting
  {
    p.(values := values, dirty := values != p.baseline)
  }

  /** The role select as written: `setValue('role', value)` without `shouldDirty` changes the role but never whether save is enabled. */
  function SetRoleAsWritten(p: Page, role: string): (r: Page)
    ensures r.values.role == role && r.values.(role := p.values.role) == p.values
    ensures SaveEnabled(r) == SaveEnabled(p)
    ensures r.baseline == p.baseline
  {
    p.(values := p.values.(role := role))
  }

  /** The role select with the dirty flag recomputed, as for every other field. */
  function SetRole(p: Page, role: string): (r: Page)
    ensures r.values.role == role && r.values.(role := p.values.role) == p.values && Tracked(r)
    ensures SaveEnabled(r) <==> !p.loading && !p.submitting && r.values != p.baseline
    ensures r.baseline == p.baseline
  {
    Edit(p, p.values.(role := role))
  }

  /** What a successful save leaves: the sent values become the baseline and save is disabled until the next change; a failed save changes nothing. */
  function AfterSave(p: Page, ok: bool): (r: Page)
    ensures ok ==> r.baseline == p.values && r.values == p.values && Tracked(r) && !SaveEnabled(r)
    ensures !ok ==> r == p
  {
    if ok then Reset(p, p.values) else p
  }

  /** The flag the button reads agrees with the values. */
  predicate Tracked(p: Page) {
    p.dirty <==> p.values != p.baseline
  }

  /** Loading, typing, the corrected role select and saving keep the flag in step with the values, so save is enabled only when something differs from the last saved state. */
  lemma TrackingPreserved(p: Page, values: FormData, role: string, ok: bool, data: FormData)
    requires Tracked(p)
    ensures Tracked(Loaded(data)) && Tracked(Edit(p, values)) && Tracked(SetRole(p, role)) && Tracked(AfterSave(p, ok))
    ensures SaveEnabled(p) ==> p.values != p.baseline
  {
  }

  /** As written, an administrator who changes only the role gets no save button: the form stays clean although the role differs. */
  lemma RoleOnlyChangeCannotBeSaved(data: FormData, role: string)
    requires role != data.role
    ensures var p := SetRoleAsWritten(Loaded(data), role);
      p.values.role == role && p.values != p.baseline && !SaveEnabled(p) && !Tracked(p)
  {
    assert SetRoleAsWritten(Loaded(data), role).values.role != data.role;
  }

  /** With the flag recomputed, changing only the role to a different one enables saving. */
  lemma RoleOnlyChangeCanBeSaved(data: FormData, role: string)
    requires role != data.role
    ensures SaveEnabled(SetRole(Loaded(data), role))
  {
    assert SetRole(Loaded(data), role).values.role != data.role;
  }
}
