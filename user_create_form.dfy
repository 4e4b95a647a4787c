/**
 * The dialog an administrator creates a user with: the password-strength score and
 * its label, the random-password generator, the validity test that enables the
 * create button, the role and permission handlers, and the reset to the initial form.
 * `Math.random()` draws are parameters in [0, 1); the request itself is the
 * administration route's `POST`.
 */
module UserCreateForm {
  import opened Text
  import opened Permissions
  import opened FormChecks

  // ----- Password strength -----

  /** How many of the two length thresholds (8, 12) the password reaches. */
  function LengthTiers(n: nat): (t: nat)
    ensures t <= 2
  {
    (if n >= 8 then 1 else 0) + (if n >= 12 then 1 else 0)
  }

  /** How many of the four character classes (lower-case, upper-case, digit, other) occur. */
  function ClassCount(s: string): (c: nat)
    ensures c <= 4
  {
    (if HasLower(s) then 1 else 0) + (if HasUpper(s) then 1 else 0) + (if HasDigit(s) then 1 else 0) + (if HasOther(s) then 1 else 0)
  }

  /** `calculatePasswordStrength`: 25 per length threshold, 12.5 per character class, capped at 100. */
  method CalculatePasswordStrength(password: string) returns (strength: real)
    ensures strength == Strength(password)
    ensures 0.0 <= strength <= 100.0
  {
    strength := 0.0;
    if |password| >= 8 { strength := strength + 25.0; }
    if |password| >= 12 { strength := strength + 25.0; }
    if HasLower(password) { strength := strength + 12.5; }
    if HasUpper(password) { strength := strength + 12.5; }
    if HasDigit(password) { strength := strength + 12.5; }
    if HasOther(password) { strength := strength + 12.5; }
    if strength > 100.0 { strength := 100.0; }
  }

  /** The score: the cap at 100 never applies, as 2 thresholds and 4 classes give at most 100. */
  function Strength(password: string): real {
    25.0 * LengthTiers(|password|) as real + 12.5 * ClassCount(password) as real
  }

  datatype StrengthText = Weak | Medium | Strong | VeryStrong

  /** `getPasswordStrengthText`: below 30, below 60, below 80, otherwise. */
  function StrengthTextOf(strength: real): (t: StrengthText)
    ensures t == Weak <==> strength < 30.0
    ensures t == Medium <==> 30.0 <= strength < 60.0
    ensures t == Strong <==> 60.0 <= strength < 80.0
    ensures t == VeryStrong <==> 80.0 <= strength
  {
    if strength < 30.0 then Weak
    else if strength < 60.0 then Medium
    else if strength < 80.0 then Strong
    else VeryStrong
  }

  /** The German label for each level. */
  function StrengthLabel(t: StrengthText): string {
    match t
    case Weak => "Schwach"
    case Medium => "Mittel"
    case Strong => "Stark"
    case VeryStrong => "Sehr stark"
  }

  /**
   * A password shorter than eight characters is at best "Mittel", whatever it contains; one of
   * twelve or more characters using all four classes scores the full 100; and more length or
   * more classes never lowers the score.
   */
  lemma StrengthLevels(password: string, longer: string)
    ensures |password| < 8 ==> Strength(password) <= 50.0 && StrengthTextOf(Strength(password)) in {Weak, Medium}
    ensures |password| >= 12 && ClassCount(password) == 4 ==> Strength(password) == 100.0
    ensures |longer| >= |password| && ClassCount(longer) >= ClassCount(password) ==> Strength(longer) >= Strength(password)
  {
  }

  /** The password "Passwort" (eight letters, two classes) scores 50 and reads "Mittel". */
  lemma StrengthExample()
    ensures Strength("Passwort") == 50.0 && StrengthLabel(StrengthTextOf(Strength("Passwort"))) == "Mittel"
  {
    var s := "Passwort";
    assert IsUpperAscii(s[0]) && IsLowerAscii(s[1]);
    assert !HasDigit(s) by {
      forall i | 0 <= i < |s| ensures !IsDigit(s[i]) {
      }
    }
    assert !HasOther(s) by {
      forall i | 0 <= i < |s| ensures IsAlnumAscii(s[i]) {
      }
    }
  }

  // ----- Random password -----

  /** The alphabet `generateRandomPassword` draws from. */
  const Alphabet: string := "ABCDEFGHIJKLMNOPQRSTUVWXYZabcdefghijklmnopqrstuvwxyz0123456789!@#$%^&*()_+{}:\"<>?|[];',./`~"

  const DefaultPasswordLength: nat := 12

  /** `Math.floor(draw * chars.length)`: a position of the alphabet for a draw in [0, 1). */
  function AlphabetIndex(draw: real): (k: nat)
    requires 0.0 <= draw < 1.0
    ensures k < |Alphabet|
    ensures k as real <= draw * |Alphabet| as real < (k + 1) as real
  {
    var x := draw * |Alphabet| as real;
    assert 0.0 <= x < |Alphabet| as real;
    x.Floor
  }

  /** `generateRandomPassword(length)`, one `Math.random()` draw per character. */
  method GenerateRandomPassword(length: nat, draws: seq<real>) returns (pass: string)
    requires |draws| == length
    requires forall i :: 0 <= i < |draws| ==> 0.0 <= draws[i] < 1.0
    ensures |pass| == length
    ensures forall i :: 0 <= i < length ==> pass[i] == Alphabet[AlphabetIndex(draws[i])]
    ensures forall i :: 0 <= i < length ==> pass[i] in Alphabet
  {
    pass := "";
    var i := 0;
    while i < length
      invariant 0 <= i <= length
      invariant |pass| == i
      invariant forall k :: 0 <= k < i ==> pass[k] == Alphabet[AlphabetIndex(draws[k])]
    {
      pass := pass + [Alphabet[AlphabetIndex(draws[i])]];
      i := i + 1;
    }
  }

  /** Every character of the alphabet is drawn by some value in [0, 1): the one at k / |alphabet|. */
  lemma EveryCharacterReachable(k: nat)
    requires k < |Alphabet|
    ensures var d := k as real / |Alphabet| as real; 0.0 <= d < 1.0 && AlphabetIndex(d) == k
  {
    var n := |Alphabet| as real;
    var d := k as real / n;
    assert d * n == k as real;
  }

  // ----- The form -----

  /** `CreateUserData` as the form holds it. */
  datatype CreateForm = CreateForm(firstName: string, lastName: string, email: string, role: Role,
                                   password: string, approved: bool, isActive: bool, permissions: Flags)

  /** The state the form opens with and returns to. */
  const InitialForm := CreateForm("", "", "", RoleUser, "", true, true, DefaultPermissions)

  /** `isFormValid()`; it enables the create button (when nothing is loading). */
  predicate IsFormValid(f: CreateForm) {
    && Trim(f.firstName) != ""
    && Trim(f.lastName) != ""
    && Trim(f.email) != ""
    && EmailShaped(f.email)
    && |f.password| >= 8
  }

  /** The form is valid exactly when the names have a non-space character, the e-mail matches the pattern, and the password has eight characters. */
  lemma FormValidity(f: CreateForm)
    ensures IsFormValid(f) <==> !IsBlank(f.firstName) && !IsBlank(f.lastName) && EmailPattern(f.email) && |f.password| >= 8
    ensures !IsFormValid(InitialForm)
  {
    TrimEmptyIffBlank(f.firstName);
    TrimEmptyIffBlank(f.lastName);
    TrimEmptyIffBlank(f.email);
    EmailShapedIsPattern(f.email);
    if EmailPattern(f.email) {
      var i, j :| 0 < i && i + 1 < j && j + 1 < |f.email| && f.email[i] == '@' && f.email[j] == '.' &&
        forall k :: 0 <= k < |f.email| && k != i ==> PlainChar(f.email[k]);
      assert !IsSpace(f.email[0]);
    }
  }

  /** The permission update both user dialogs make on a role change. */
  function FlagsForRole(flags: Flags, role: Role): (r: Flags)
    ensures role == RoleAdmin ==> forall p :: r.Get(p)
    ensures role != RoleAdmin ==> !r.admin && forall p :: p != Admin ==> r.Get(p) == flags.Get(p)
  {
    if role == RoleAdmin then AllGranted else flags.(admin := false)
  }

  /** `handleRoleChange(role)`: the role and the flags change, nothing else. */
  function HandleRoleChange(f: CreateForm, role: Role): (r: CreateForm)
    ensures r.role == role
    ensures role == RoleAdmin ==> forall p :: r.permissions.Get(p)
    ensures role != RoleAdmin ==> !r.permissions.admin && forall p :: p != Admin ==> r.permissions.Get(p) == f.permissions.Get(p)
    ensures r.(role := f.role, permissions := f.permissions) == f
  {
    f.(role := role, permissions := FlagsForRole(f.permissions, role))
  }

  /** `handlePermissionChange(permission, checked)`. */
  function HandlePermissionChange(f: CreateForm, p: Permission, checked: bool): (r: CreateForm)
    ensures r.permissions.Get(p) == checked
    ensures forall q :: q != p ==> r.permissions.Get(q) == f.permissions.Get(q)
    ensures r.(permissions := f.permissions) == f
  {
    f.(permissions := f.permissions.Set(p, checked))
  }

  /** A permission checkbox is disabled while loading, and for every flag but admin while the role is admin. */
  predicate CheckboxEnabled(f: CreateForm, p: Permission, loading: bool) {
    !(f.role == RoleAdmin && p != Admin) && !loading
  }

  /** A run of checkbox clicks; a click on a disabled checkbox does nothing. */
  function Clicks(f: CreateForm, clicks: seq<(Permission, bool)>): CreateForm
    decreases |clicks|
  {
    if clicks == [] then f
    else
      var (p, checked) := clicks[0];
      Clicks(if CheckboxEnabled(f, p, false) then HandlePermissionChange(f, p, checked) else f, clicks[1..])
  }

  /**
   * After choosing admin, any run of clicks on the checkboxes keeps the role admin and the
   * five department flags as they were (only the admin box is enabled); and for every role,
   * choosing it twice is the same as choosing it once.
   */
  lemma {:induction false} AdminFlagsStay(f: CreateForm, clicks: seq<(Permission, bool)>)
    requires f.role == RoleAdmin
    ensures Clicks(f, clicks).role == RoleAdmin
    ensures forall q :: q != Admin ==> Clicks(f, clicks).permissions.Get(q) == f.permissions.Get(q)
    ensures forall role :: HandleRoleChange(HandleRoleChange(f, role), role) == HandleRoleChange(f, role)
    decreases |clicks|
  {
    if clicks != [] {
      var (p, checked) := clicks[0];
      var g := if CheckboxEnabled(f, p, false) then HandlePermissionChange(f, p, checked) else f;
      AdminFlagsStay(g, clicks[1..]);
    }
  }

  /**
   * What a create attempt leaves: after a success the form is cleared, so the create button is
   * disabled and no second account can be created from the same entries; after a failure the
   * entries stay for correction.
   */
  function AfterCreate(f: CreateForm, succeeded: bool): (r: CreateForm)
    ensures succeeded ==> !IsFormValid(r) && r.email == "" && r.password == "" && r.role == RoleUser
    ensures succeeded ==> forall p :: !r.permissions.Get(p)
    ensures !succeeded ==> r == f
  {
    FormValidity(InitialForm);
    if succeeded then InitialForm else f
  }

  /** `handleClose`: the entries are discarded, the form cannot be submitted, and it is the form a success leaves. */
  function Close(f: CreateForm): (r: CreateForm)
    ensures !IsFormValid(r) && r.email == "" && r.password == "" && forall p :: !r.permissions.Get(p)
    ensures forall g :: r == AfterCreate(g, true)
  {
    FormValidity(InitialForm);
    InitialForm
  }

  /** The initial form: empty strings, role 'user', approved and active, every flag false. */
  lemma InitialState()
    ensures InitialForm.firstName == "" && InitialForm.lastName == "" && InitialForm.email == "" && InitialForm.password == ""
    ensures InitialForm.role == RoleUser && InitialForm.approved && InitialForm.isActive
    ensures forall p :: !InitialForm.permissions.Get(p)
    ensures Strength(InitialForm.password) == 0.0
  {
    assert !HasLower("") && !HasUpper("") && !HasDigit("") && !HasOther("");
  }
}
